/** Every step of the reactor keeps the invariant. */
module SchedulerSteps {
  import opened Graphs
  import opened Scheduler
  import opened SchedulerInvariant

  // ----- a node leaves the queue or the in-flight set -----

  /** A node that leaves the queue or the in-flight set is stalled until it is dealt with. */
  lemma TakenIsStalled(w: Workflow, s: State, disp: Dispositions, s': State, u: nat)
    requires Due(w, disp, {}, u) && forall n :: Idle(s', n) <==> Idle(s, n) || n == u
    ensures StalledNodes(w, s', disp, {}) == StalledNodes(w, s, disp, {}) + {u}
  {
    hide Idle, Waiting, Inner;
  }

  lemma LaunchedIsNotStalled(w: Workflow, s: State, disp: Dispositions, s': State, u: nat)
    requires forall n :: Idle(s', n) <==> Idle(s, n) && n != u
    ensures StalledNodes(w, s', disp, {}) == StalledNodes(w, s, disp, {}) - {u}
  {
    hide Idle, Waiting;
  }

  /** Counters, dispositions and markers are blind to the queue and the in-flight set. */
  lemma BooksIgnoreQueues(w: Workflow, s: State, disp: Dispositions, ready: seq<nat>, executing: seq<Job>)
    requires Counted(w, s, disp, {}) && Settled(w, s, disp, {}) && Marked(w, s, disp, {})
    ensures var s' := s.(ready := ready, executing := executing);
            Counted(w, s', disp, {}) && Settled(w, s', disp, {}) && Marked(w, s', disp, {})
  {
    hide Waiting, Inner, Dead, NonTail, HeadsFirst, InEdges;
  }

  lemma QueuesStayInOrder(w: Workflow, s: State, disp: Dispositions, ready: seq<nat>, executing: seq<Job>)
    requires Queued(w, s, disp, {}) && InFlight(w, s, disp, {})
    requires forall i | 0 <= i < |ready| :: ready[i] in s.ready
    requires forall i, j | 0 <= i < j < |ready| :: ready[i] != ready[j]
    requires forall i | 0 <= i < |executing| :: executing[i] in s.executing
    requires forall i, j | 0 <= i < j < |executing| :: executing[i].node != executing[j].node
    ensures var s' := s.(ready := ready, executing := executing);
            Queued(w, s', disp, {}) && InFlight(w, s', disp, {})
  {
    hide Due, Gather, InChains;
  }

  lemma TakeReady(w: Workflow, s: State, disp: Dispositions, i: nat)
    requires Inv(w, s, disp, {}) && i < |s.ready|
    ensures Inv(w, s.(ready := Without(s.ready, i)), disp, {})
    ensures Due(w, disp, {}, s.ready[i]) && Idle(s.(ready := Without(s.ready, i)), s.ready[i])
    ensures StalledNodes(w, s.(ready := Without(s.ready, i)), disp, {}) == StalledNodes(w, s, disp, {}) + {s.ready[i]}
    ensures s.ready[i] !in StalledNodes(w, s, disp, {})
  {
    hide *;
    PoppedIsTaken(w, s, disp, i);
    OthersStayQueued(w, s, disp, i);
    TakenIsStalled(w, s, disp, s.(ready := Without(s.ready, i)), s.ready[i]);
    BusyIsNotStalled(w, s, disp, s.ready[i]);
  }

  lemma OthersStayQueued(w: Workflow, s: State, disp: Dispositions, i: nat)
    requires Inv(w, s, disp, {}) && i < |s.ready|
    ensures Inv(w, s.(ready := Without(s.ready, i)), disp, {})
  {
    BooksIgnoreQueues(w, s, disp, Without(s.ready, i), s.executing);
    QueuesStayInOrder(w, s, disp, Without(s.ready, i), s.executing);
    hide Counted, Settled, Marked, Queued, InFlight, Without;
  }

  lemma PoppedIsTaken(w: Workflow, s: State, disp: Dispositions, i: nat)
    requires Inv(w, s, disp, {}) && i < |s.ready|
    ensures Due(w, disp, {}, s.ready[i]) && !Idle(s, s.ready[i])
    ensures forall n :: Idle(s.(ready := Without(s.ready, i)), n) <==> Idle(s, n) || n == s.ready[i]
  {
    assert Queued(w, s, disp, {}) && InFlight(w, s, disp, {});
    hide Inv, Due, JobOk;
    WithoutDrops(s.ready, i);
    hide Without;
  }

  lemma WithoutDrops(all: seq<nat>, i: nat)
    requires i < |all| && forall j, k | 0 <= j < k < |all| :: all[j] != all[k]
    ensures forall n :: n in Without(all, i) <==> n in all && n != all[i]
  {
    forall n ensures n in Without(all, i) <==> n in all && n != all[i] {
      if n in all && n != all[i] {
        var j :| 0 <= j < |all| && all[j] == n;
        assert Without(all, i)[if j < i then j else j - 1] == n;
      }
    }
  }

  lemma WithoutKeepsOthers(jobs: seq<Job>, i: nat)
    requires i < |jobs|
    ensures forall j | 0 <= j < |jobs| && j != i :: jobs[j] in Without(jobs, i)
  {
    forall j | 0 <= j < |jobs| && j != i ensures jobs[j] in Without(jobs, i) {
      assert jobs[j] == Without(jobs, i)[if j < i then j else j - 1];
    }
  }

  lemma JobIsTaken(w: Workflow, s: State, disp: Dispositions, i: nat)
    requires Inv(w, s, disp, {}) && i < |s.executing|
    ensures Due(w, disp, {}, s.executing[i].node) && !Idle(s, s.executing[i].node)
    ensures forall n :: Idle(s.(executing := Without(s.executing, i)), n) <==> Idle(s, n) || n == s.executing[i].node
  {
    assert InFlight(w, s, disp, {});
    WithoutKeepsOthers(s.executing, i);
    hide Inv, Due, JobOk;
  }

  lemma OtherJobsStayInFlight(w: Workflow, s: State, disp: Dispositions, i: nat)
    requires Inv(w, s, disp, {}) && i < |s.executing|
    ensures Inv(w, s.(executing := Without(s.executing, i)), disp, {})
  {
    BooksIgnoreQueues(w, s, disp, s.ready, Without(s.executing, i));
    QueuesStayInOrder(w, s, disp, s.ready, Without(s.executing, i));
    hide Counted, Settled, Marked, Queued, InFlight, Without;
  }

  lemma TakeJob(w: Workflow, s: State, disp: Dispositions, i: nat)
    requires Inv(w, s, disp, {}) && i < |s.executing|
    ensures Inv(w, s.(executing := Without(s.executing, i)), disp, {})
    ensures Due(w, disp, {}, s.executing[i].node)
    ensures Idle(s.(executing := Without(s.executing, i)), s.executing[i].node)
    ensures StalledNodes(w, s.(executing := Without(s.executing, i)), disp, {})
         == StalledNodes(w, s, disp, {}) + {s.executing[i].node}
    ensures s.executing[i].node !in StalledNodes(w, s, disp, {})
  {
    hide *;
    JobIsTaken(w, s, disp, i);
    OtherJobsStayInFlight(w, s, disp, i);
    TakenIsStalled(w, s, disp, s.(executing := Without(s.executing, i)), s.executing[i].node);
    BusyIsNotStalled(w, s, disp, s.executing[i].node);
  }

  lemma BusyIsNotStalled(w: Workflow, s: State, disp: Dispositions, n: nat)
    requires !Idle(s, n)
    ensures n !in StalledNodes(w, s, disp, {})
  {
  }

  lemma LaunchKeepsInv(w: Workflow, s: State, disp: Dispositions, job: Job)
    requires Inv(w, s, disp, {}) && Due(w, disp, {}, job.node) && Idle(s, job.node) && JobOk(w, s, job)
    ensures Inv(w, s.(executing := s.executing + [job]), disp, {})
  {
    BooksIgnoreQueues(w, s, disp, s.ready, s.executing + [job]);
    OneMoreInFlight(w, s, disp, job);
    hide Counted, Settled, Marked, Queued, InFlight;
  }

  lemma OneMoreInFlight(w: Workflow, s: State, disp: Dispositions, job: Job)
    requires Queued(w, s, disp, {}) && InFlight(w, s, disp, {})
    requires Due(w, disp, {}, job.node) && Idle(s, job.node) && JobOk(w, s, job)
    ensures Queued(w, s.(executing := s.executing + [job]), disp, {})
    ensures InFlight(w, s.(executing := s.executing + [job]), disp, {})
  {
    hide Due, Gather, InChains;
  }

  lemma LaunchKeeps(w: Workflow, s: State, disp: Dispositions, job: Job)
    requires Inv(w, s, disp, {}) && Due(w, disp, {}, job.node) && Idle(s, job.node) && JobOk(w, s, job)
    ensures Inv(w, s.(executing := s.executing + [job]), disp, {})
    ensures StalledNodes(w, s.(executing := s.executing + [job]), disp, {}) == StalledNodes(w, s, disp, {}) - {job.node}
  {
    hide *;
    LaunchKeepsInv(w, s, disp, job);
    JobIsIdleNoMore(s, job);
    LaunchedIsNotStalled(w, s, disp, s.(executing := s.executing + [job]), job.node);
  }

  lemma JobIsIdleNoMore(s: State, job: Job)
    ensures forall n :: Idle(s.(executing := s.executing + [job]), n) <==> Idle(s, n) && n != job.node
  {
    var s' := s.(executing := s.executing + [job]);
    assert s'.executing[|s.executing|] == job;
    forall n | !Idle(s, n) ensures !Idle(s', n) {
      if n !in s.ready {
        var i :| 0 <= i < |s.executing| && s.executing[i].node == n;
        assert s'.executing[i].node == n;
      }
    }
  }

  // ----- a node settles -----

  function Record(s: State, u: nat, v: Value): State {
    s.(results := s.results[u := v])
  }

  lemma DueHasNoResult(w: Workflow, s: State, disp: Dispositions, todo: set<nat>, u: nat)
    requires Marked(w, s, disp, todo) && Due(w, disp, todo, u)
    ensures u !in s.results
  {
    forall i | i in InEdges(w.graph, u) ensures !Dead(w.graph, disp, todo, i) {
      assert i !in Waiting(w.graph, disp, todo, u);
    }
  }

  lemma RecordKeepsInFlight(w: Workflow, s: State, disp: Dispositions, todo: set<nat>, u: nat, v: Value)
    requires WellFormed(w) && Settled(w, s, disp, todo) && InFlight(w, s, disp, todo)
    requires u !in disp
    ensures InFlight(w, Record(s, u, v), disp, todo)
  {
    forall j | 0 <= j < |s.executing|
      ensures JobOk(w, Record(s, u, v), s.executing[j])
    {
      DueHasInputs(w, s, disp, todo, s.executing[j].node);
      GatherSame(w.graph, s.results, Record(s, u, v).results, s.executing[j].node, |w.graph.edges|);
    }
  }

  lemma NotYetVisited(g: Graph, disp: Dispositions, u: nat, d: Disposition)
    requires u !in disp
    ensures forall n :: Waiting(g, disp[u := d], OutEdges(g, u), n) == Waiting(g, disp, {}, n)
    ensures forall j | 0 <= j < |g.edges| :: Dead(g, disp[u := d], OutEdges(g, u), j) <==> Dead(g, disp, {}, j)
  {
    assert forall j: nat | j < |g.edges| :: g.edges[j].src == u <==> j in OutEdges(g, u);
    assert forall j: nat | j < |g.edges| ::
        Delivered(g, disp[u := d], OutEdges(g, u), j) <==> Delivered(g, disp, {}, j);
  }

  lemma SettleMarks(w: Workflow, s: State, disp: Dispositions, u: nat, v: Value, d: Disposition)
    requires Marked(w, s, disp, {}) && Due(w, disp, {}, u)
    ensures Marked(w, Record(s, u, v), disp[u := d], OutEdges(w.graph, u))
  {
    NotYetVisited(w.graph, disp, u, d);
    var s' := Record(s, u, v);
    forall n | n in s'.results && n < w.graph.size && n !in disp[u := d]
      ensures exists i | i in InEdges(w.graph, n) :: Dead(w.graph, disp[u := d], OutEdges(w.graph, u), i)
    {
      var i :| i in InEdges(w.graph, n) && Dead(w.graph, disp, {}, i);
      assert Dead(w.graph, disp[u := d], OutEdges(w.graph, u), i);
    }
  }

  /** A node outside every chain settles; its successors are still to be visited. */
  lemma SettleCounts(w: Workflow, s: State, disp: Dispositions, u: nat, v: Value, d: Disposition)
    requires Counted(w, s, disp, {}) && u !in disp && !InChains(w.chains, u)
    ensures Counted(w, Record(s, u, v), disp[u := d], OutEdges(w.graph, u))
  {
    NotYetVisited(w.graph, disp, u, d);
    hide Waiting, Dead;
  }

  lemma SettleSettles(w: Workflow, s: State, disp: Dispositions, u: nat, v: Value, d: Disposition)
    requires Settled(w, s, disp, {}) && Due(w, disp, {}, u) && !InChains(w.chains, u) && d != Batched
    ensures Settled(w, Record(s, u, v), disp[u := d], OutEdges(w.graph, u))
  {
    NotYetVisited(w.graph, disp, u, d);
    hide Waiting, Dead, NonTail, Inner;
  }

  lemma SettleKeepsWaiters(w: Workflow, s: State, disp: Dispositions, u: nat, v: Value, d: Disposition)
    requires WellFormed(w) && Settled(w, s, disp, {}) && Queued(w, s, disp, {}) && InFlight(w, s, disp, {})
    requires u !in disp && Idle(s, u)
    ensures Queued(w, Record(s, u, v), disp[u := d], OutEdges(w.graph, u))
    ensures InFlight(w, Record(s, u, v), disp[u := d], OutEdges(w.graph, u))
  {
    NotYetVisited(w.graph, disp, u, d);
    RecordKeepsInFlight(w, s, disp, {}, u, v);
    hide Waiting, Dead, Settled, WellFormed, Gather, Inner;
  }

  /** A node outside every chain settles; its successors are still to be visited. */
  lemma SettleKeeps(w: Workflow, s: State, disp: Dispositions, u: nat, v: Value, d: Disposition)
    requires WellFormed(w) && Inv(w, s, disp, {})
    requires Due(w, disp, {}, u) && Idle(s, u) && !InChains(w.chains, u) && d != Batched
    ensures Inv(w, Record(s, u, v), disp[u := d], OutEdges(w.graph, u))
    ensures Grows(s, Record(s, u, v)) && !NonTail(w.chains, u)
  {
    hide Counted, Settled, Queued, InFlight, Marked, WellFormed, Waiting;
    SettleCounts(w, s, disp, u, v, d);
    SettleSettles(w, s, disp, u, v, d);
    SettleKeepsWaiters(w, s, disp, u, v, d);
    SettleMarks(w, s, disp, u, v, d);
    DueHasNoResult(w, s, disp, {}, u);
  }

  lemma SettledIsNotStalled(w: Workflow, s: State, disp: Dispositions, u: nat, v: Value, d: Disposition)
    requires u !in disp
    ensures StalledNodes(w, Record(s, u, v), disp[u := d], OutEdges(w.graph, u)) == StalledNodes(w, s, disp, {}) - {u}
  {
    NotYetVisited(w.graph, disp, u, d);
    hide Waiting, Dead;
    assert forall n :: Idle(Record(s, u, v), n) == Idle(s, n);
  }

  // ----- a chain settles -----

  ghost predicate ChainJob(w: Workflow, disp: Dispositions, s: State, k: nat) {
    k < |w.chains| && w.chains[k] != [] && Due(w, disp, {}, w.chains[k][0]) && Idle(s, w.chains[k][0])
  }

  function Last(chain: seq<nat>): nat
    requires chain != []
  {
    chain[|chain| - 1]
  }

  /** The members before the tail ran inside the batch; the tail settles as d. */
  function SettleChain(chain: seq<nat>, disp: Dispositions, d: Disposition): Dispositions
    requires chain != []
  {
    (disp + map n | n in chain :: Batched)[Last(chain) := d]
  }

  lemma SettleChainAt(chain: seq<nat>, disp: Dispositions, d: Disposition, n: nat)
    requires chain != []
    ensures n in SettleChain(chain, disp, d) <==> n in disp || n in chain
    ensures n in chain && n != Last(chain) ==> SettleChain(chain, disp, d)[n] == Batched
    ensures SettleChain(chain, disp, d)[Last(chain)] == d
    ensures n in disp && n !in chain ==> SettleChain(chain, disp, d)[n] == disp[n]
  {
  }

  ghost predicate Untouched(w: Workflow, s: State, disp: Dispositions, k: nat) {
    && k < |w.chains| && w.chains[k] != []
    && (forall n | n in w.chains[k] :: n !in disp && n !in s.results && Idle(s, n))
    && Waiting(w.graph, disp, {}, w.chains[k][0]) == {}
  }

  lemma ChainUntouched(w: Workflow, s: State, disp: Dispositions, k: nat)
    requires WellFormed(w) && Inv(w, s, disp, {}) && ChainJob(w, disp, s, k)
    ensures Untouched(w, s, disp, k)
  {
    var c := w.chains[k];
    assert IsChain(w.graph, c);
    DueHasNoResult(w, s, disp, {}, c[0]);
    forall n | n in c
      ensures n !in disp && n !in s.results && Idle(s, n)
    {
      var j :| 0 <= j < |c| && c[j] == n;
      if j > 0 {
        assert Inner(w.chains, n);
        forall i | i in InEdges(w.graph, n) ensures !Dead(w.graph, disp, {}, i) {
          ChainFedFromWithin(w, k, j, i);
        }
      }
    }
  }

  lemma ChainFedFromWithin(w: Workflow, k: nat, j: nat, i: nat)
    requires WellFormed(w) && k < |w.chains| && 1 <= j < |w.chains[k]|
    requires i in InEdges(w.graph, w.chains[k][j])
    ensures w.graph.edges[i].src == w.chains[k][j - 1] && OutEdges(w.graph, w.chains[k][j - 1]) == {i}
  {
    var c := w.chains[k];
    assert IsChain(w.graph, c);
    assert Link(w.graph, c[j - 1], c[j - 1 + 1]);
    var e: nat :| OutEdges(w.graph, c[j - 1]) == {e} && InEdges(w.graph, c[j]) == {e};
    assert e in OutEdges(w.graph, c[j - 1]) && i in {e};
  }

  lemma LinkEdge(w: Workflow, k: nat, j: nat) returns (i: nat)
    requires WellFormed(w) && k < |w.chains| && 1 <= j < |w.chains[k]|
    ensures i < |w.graph.edges| && w.graph.edges[i].src == w.chains[k][j - 1] && w.graph.edges[i].dst == w.chains[k][j]
    ensures w.chains[k][j - 1] < w.graph.size
  {
    assert IsChain(w.graph, w.chains[k]) && Link(w.graph, w.chains[k][j - 1], w.chains[k][j - 1 + 1]);
    i :| OutEdges(w.graph, w.chains[k][j - 1]) == {i} && InEdges(w.graph, w.chains[k][j]) == {i};
    assert i in OutEdges(w.graph, w.chains[k][j - 1]) && i in InEdges(w.graph, w.chains[k][j]);
  }

  /** Settling a chain delivers the edges inside it and no other. */
  lemma ChainEdge(w: Workflow, disp: Dispositions, k: nat, d: Disposition, i: nat)
    requires WellFormed(w) && k < |w.chains| && i < |w.graph.edges|
    requires forall n | n in w.chains[k] :: n !in disp
    requires w.chains[k] != [] && Waiting(w.graph, disp, {}, w.chains[k][0]) == {}
    ensures var disp', todo := SettleChain(w.chains[k], disp, d), OutEdges(w.graph, Last(w.chains[k]));
            && (Delivered(w.graph, disp', todo, i)
                <==> (w.graph.edges[i].dst in w.chains[k] || Delivered(w.graph, disp, {}, i)))
            && (Dead(w.graph, disp', todo, i) <==> Dead(w.graph, disp, {}, i))
  {
    hide ChainsOk;
    var c := w.chains[k];
    var p, n := w.graph.edges[i].src, w.graph.edges[i].dst;
    ChainFacts(w, k);
    if n in c {
      var j :| 0 <= j < |c| && c[j] == n;
      assert i in InEdges(w.graph, n);
      if j == 0 {
        assert i !in Waiting(w.graph, disp, {}, n);
      } else {
        ChainFedFromWithin(w, k, j, i);
      }
    } else if p in c {
      var j :| 0 <= j < |c| && c[j] == p;
      assert i in OutEdges(w.graph, p);
      if j < |c| - 1 {
        ChainFeedsWithin(w, k, j, i);
      }
    }
  }

  lemma ChainFacts(w: Workflow, k: nat)
    requires WellFormed(w) && k < |w.chains|
    ensures |w.chains[k]| >= 2
    ensures forall i, j | 0 <= i < j < |w.chains[k]| :: w.chains[k][i] != w.chains[k][j]
    ensures forall n | n in w.chains[k] :: n < w.graph.size
  {
    assert IsChain(w.graph, w.chains[k]);
  }

  lemma ChainFeedsWithin(w: Workflow, k: nat, j: nat, i: nat)
    requires WellFormed(w) && k < |w.chains| && j < |w.chains[k]| - 1
    requires i in OutEdges(w.graph, w.chains[k][j])
    ensures w.graph.edges[i].dst == w.chains[k][j + 1]
  {
    var c := w.chains[k];
    assert IsChain(w.graph, c);
    assert Link(w.graph, c[j], c[j + 1]);
    var e: nat :| OutEdges(w.graph, c[j]) == {e} && InEdges(w.graph, c[j + 1]) == {e};
    assert e in InEdges(w.graph, c[j + 1]) && i in {e};
  }

  lemma ChainWaiting(w: Workflow, disp: Dispositions, k: nat, d: Disposition)
    requires WellFormed(w) && k < |w.chains|
    requires forall n | n in w.chains[k] :: n !in disp
    requires w.chains[k] != [] && Waiting(w.graph, disp, {}, w.chains[k][0]) == {}
    ensures var disp', todo := SettleChain(w.chains[k], disp, d), OutEdges(w.graph, Last(w.chains[k]));
            && (forall n :: Waiting(w.graph, disp', todo, n)
                            == if n in w.chains[k] then {} else Waiting(w.graph, disp, {}, n))
            && (forall j | 0 <= j < |w.graph.edges| ::
                  Dead(w.graph, disp', todo, j) <==> Dead(w.graph, disp, {}, j))
  {
    var disp', todo := SettleChain(w.chains[k], disp, d), OutEdges(w.graph, Last(w.chains[k]));
    hide *;
    forall i: nat | i < |w.graph.edges|
      ensures Delivered(w.graph, disp', todo, i)
              <==> (w.graph.edges[i].dst in w.chains[k] || Delivered(w.graph, disp, {}, i))
      ensures Dead(w.graph, disp', todo, i) <==> Dead(w.graph, disp, {}, i)
    {
      ChainEdge(w, disp, k, d, i);
    }
    WaitingAfter(w.graph, disp, disp', todo, w.chains[k]);
  }

  lemma WaitingAfter(g: Graph, disp: Dispositions, disp': Dispositions, todo: set<nat>, c: seq<nat>)
    requires forall i: nat | i < |g.edges| ::
               Delivered(g, disp', todo, i) <==> (g.edges[i].dst in c || Delivered(g, disp, {}, i))
    ensures forall n :: Waiting(g, disp', todo, n) == if n in c then {} else Waiting(g, disp, {}, n)
  {
  }

  lemma TailIsNoNonTail(w: Workflow, k: nat)
    requires WellFormed(w) && k < |w.chains|
    ensures w.chains[k] != [] && !NonTail(w.chains, Last(w.chains[k])) && !IsHead(w.chains, Last(w.chains[k]))
    ensures forall l, n | 0 <= l < |w.chains| && n in w.chains[k] && n in w.chains[l] :: l == k
  {
    assert IsChain(w.graph, w.chains[k]);
    var t := Last(w.chains[k]);
    assert forall l, n | 0 <= l < |w.chains| && n in w.chains[k] && n in w.chains[l] :: l == k;
    forall l, j | 0 <= l < |w.chains| && 0 <= j < |w.chains[l]| && w.chains[l][j] == t
      ensures j == |w.chains[l]| - 1 && j != 0
    {
      assert t in w.chains[l] && t in w.chains[k];
    }
  }

  /** Only members' counters change while a chain settles. */
  ghost predicate ClearedWithin(chain: seq<nat>, p: map<nat, nat>, p': map<nat, nat>) {
    p'.Keys == p.Keys && forall n | n in p :: p'[n] == p[n] || (n in chain && p'[n] == 0)
  }

  lemma ChainCounted(w: Workflow, s: State, disp: Dispositions, k: nat, v: Value, d: Disposition, p: map<nat, nat>)
    requires WellFormed(w) && Untouched(w, s, disp, k) && Counted(w, s, disp, {})
    requires ClearedWithin(w.chains[k], s.pending, p)
    ensures Counted(w, Record(s, Last(w.chains[k]), v).(pending := p),
                    SettleChain(w.chains[k], disp, d), OutEdges(w.graph, Last(w.chains[k])))
  {
    assert k < |w.chains| && w.chains[k] != [];
    var c := w.chains[k];
    hide *;
    var disp', todo := SettleChain(c, disp, d), OutEdges(w.graph, Last(c));
    forall n | n in p && !(n in disp' && Inner(w.chains, n))
      ensures p[n] == |Waiting(w.graph, disp', todo, n)|
    {
      ChainMemberCounted(w, s, disp, k, d, p, n);
    }
    RecountedAfter(w, s, disp, c, p, Last(c), v, disp', todo);
  }

  lemma RecountedAfter(w: Workflow, s: State, disp: Dispositions, c: seq<nat>, p: map<nat, nat>, u: nat, v: Value,
                       disp': Dispositions, todo: set<nat>)
    requires Counted(w, s, disp, {}) && ClearedWithin(c, s.pending, p)
    requires forall n | n in p && !(n in disp' && Inner(w.chains, n)) :: p[n] == |Waiting(w.graph, disp', todo, n)|
    ensures Counted(w, Record(s, u, v).(pending := p), disp', todo)
  {
    hide Waiting, Inner, InEdges;
  }

  lemma ChainMemberCounted(w: Workflow, s: State, disp: Dispositions, k: nat, d: Disposition, p: map<nat, nat>, n: nat)
    requires WellFormed(w) && Untouched(w, s, disp, k) && Counted(w, s, disp, {})
    requires ClearedWithin(w.chains[k], s.pending, p)
    requires n in p && !(n in SettleChain(w.chains[k], disp, d) && Inner(w.chains, n))
    ensures p[n] == |Waiting(w.graph, SettleChain(w.chains[k], disp, d), OutEdges(w.graph, Last(w.chains[k])), n)|
  {
    hide WellFormed, Waiting, Inner, Idle, SettleChain, OutEdges;
    ChainWaitingAt(w, disp, k, d, n);
    SettleChainAt(w.chains[k], disp, d, n);
    if n in w.chains[k] { HeadOrInner(w, k, n); }
  }

  lemma HeadOrInner(w: Workflow, k: nat, n: nat)
    requires k < |w.chains| && n in w.chains[k]
    ensures n == w.chains[k][0] || Inner(w.chains, n)
  {
    var j :| 0 <= j < |w.chains[k]| && w.chains[k][j] == n;
  }

  lemma NonTailOrLast(w: Workflow, k: nat, n: nat)
    requires k < |w.chains| && n in w.chains[k] && n != Last(w.chains[k])
    ensures NonTail(w.chains, n)
  {
    var j :| 0 <= j < |w.chains[k]| && w.chains[k][j] == n;
    assert j < |w.chains[k]| - 1;
  }

  ghost predicate Member(w: Workflow, s: State, disp: Dispositions, todo: set<nat>, n: nat)
    requires n in disp
  {
    && n < w.graph.size
    && Waiting(w.graph, disp, todo, n) == {}
    && (disp[n] == Batched <==> n !in s.results)
    && (disp[n] == Batched ==> NonTail(w.chains, n))
  }

  lemma ChainWaitingAt(w: Workflow, disp: Dispositions, k: nat, d: Disposition, n: nat)
    requires WellFormed(w) && k < |w.chains|
    requires forall m | m in w.chains[k] :: m !in disp
    requires w.chains[k] != [] && Waiting(w.graph, disp, {}, w.chains[k][0]) == {}
    ensures Waiting(w.graph, SettleChain(w.chains[k], disp, d), OutEdges(w.graph, Last(w.chains[k])), n)
            == if n in w.chains[k] then {} else Waiting(w.graph, disp, {}, n)
  {
    ChainWaiting(w, disp, k, d);
  }

  lemma ChainMembersSettle(w: Workflow, s: State, disp: Dispositions, k: nat, v: Value, d: Disposition,
                           p: map<nat, nat>, n: nat)
    requires WellFormed(w) && Untouched(w, s, disp, k) && Settled(w, s, disp, {}) && d != Batched
    requires n in SettleChain(w.chains[k], disp, d)
    ensures Member(w, Record(s, Last(w.chains[k]), v).(pending := p), SettleChain(w.chains[k], disp, d),
                   OutEdges(w.graph, Last(w.chains[k])), n)
  {
    var c := w.chains[k];
    ChainFacts(w, k);
    hide HeadsFirst, WellFormed, Waiting, Idle, InChains, NonTail, SettleChain, OutEdges, Inner;
    ChainWaitingAt(w, disp, k, d, n);
    SettleChainAt(c, disp, d, n);
    if n in c && n != Last(c) {
      NonTailOrLast(w, k, n);
    }
  }

  lemma ChainHeadsSettle(w: Workflow, s: State, disp: Dispositions, k: nat, d: Disposition)
    requires WellFormed(w) && Untouched(w, s, disp, k) && Settled(w, s, disp, {})
    ensures HeadsFirst(w.chains, SettleChain(w.chains[k], disp, d))
  {
    TailIsNoNonTail(w, k);
    hide WellFormed, Waiting, Idle;
    var disp' := SettleChain(w.chains[k], disp, d);
    forall l, j | 0 <= l < |w.chains| && 0 <= j < |w.chains[l]| && w.chains[l][j] in disp'
      ensures w.chains[l][0] in disp'
    {
      if w.chains[l][j] in w.chains[k] {
        assert w.chains[l][j] in w.chains[l];
        assert l == k;
      }
    }
  }

  lemma ChainOthersDue(w: Workflow, s: State, disp: Dispositions, k: nat, d: Disposition, n: nat)
    requires WellFormed(w) && Untouched(w, s, disp, k) && Due(w, disp, {}, n) && !Idle(s, n)
    ensures Due(w, SettleChain(w.chains[k], disp, d), OutEdges(w.graph, Last(w.chains[k])), n)
  {
    hide WellFormed, Waiting, Idle, Inner, SettleChain, OutEdges;
    ChainWaitingAt(w, disp, k, d, n);
    SettleChainAt(w.chains[k], disp, d, n);
  }

  lemma ChainOthersWait(w: Workflow, s: State, disp: Dispositions, k: nat, v: Value, d: Disposition, p: map<nat, nat>)
    requires WellFormed(w) && Untouched(w, s, disp, k)
    requires Settled(w, s, disp, {}) && Queued(w, s, disp, {}) && InFlight(w, s, disp, {})
    ensures var s', disp', todo := Record(s, Last(w.chains[k]), v).(pending := p),
                                   SettleChain(w.chains[k], disp, d), OutEdges(w.graph, Last(w.chains[k]));
            Queued(w, s', disp', todo) && InFlight(w, s', disp', todo)
  {
    var c := w.chains[k];
    ChainFacts(w, k);
    RecordKeepsInFlight(w, s, disp, {}, Last(c), v);
    hide Settled, WellFormed, Due, SettleChain, Gather, Untouched;
    var disp', todo := SettleChain(c, disp, d), OutEdges(w.graph, Last(c));
    forall i | 0 <= i < |s.ready| ensures Due(w, disp', todo, s.ready[i]) {
      ChainOthersDue(w, s, disp, k, d, s.ready[i]);
    }
    forall i | 0 <= i < |s.executing| ensures Due(w, disp', todo, s.executing[i].node) {
      ChainOthersDue(w, s, disp, k, d, s.executing[i].node);
    }
  }

  lemma ChainSettled(w: Workflow, s: State, disp: Dispositions, k: nat, v: Value, d: Disposition, p: map<nat, nat>)
    requires WellFormed(w) && Untouched(w, s, disp, k) && Settled(w, s, disp, {}) && d != Batched
    ensures Settled(w, Record(s, Last(w.chains[k]), v).(pending := p),
                    SettleChain(w.chains[k], disp, d), OutEdges(w.graph, Last(w.chains[k])))
  {
    assert k < |w.chains| && w.chains[k] != [];
    hide WellFormed, Untouched, Waiting, NonTail, HeadsFirst, SettleChain, OutEdges;
    ChainHeadsSettle(w, s, disp, k, d);
    forall n | n in SettleChain(w.chains[k], disp, d)
      ensures Member(w, Record(s, Last(w.chains[k]), v).(pending := p), SettleChain(w.chains[k], disp, d),
                     OutEdges(w.graph, Last(w.chains[k])), n)
    {
      ChainMembersSettle(w, s, disp, k, v, d, p, n);
    }
  }

  lemma ChainMarked(w: Workflow, s: State, disp: Dispositions, k: nat, v: Value, d: Disposition, p: map<nat, nat>)
    requires WellFormed(w) && Untouched(w, s, disp, k) && Marked(w, s, disp, {})
    ensures Marked(w, Record(s, Last(w.chains[k]), v).(pending := p),
                   SettleChain(w.chains[k], disp, d), OutEdges(w.graph, Last(w.chains[k])))
    ensures Grows(s, Record(s, Last(w.chains[k]), v).(pending := p))
  {
    hide WellFormed, Waiting, Idle, Dead;
    var c := w.chains[k];
    ChainWaiting(w, disp, k, d);
    ChainFacts(w, k);
    var s' := Record(s, Last(c), v).(pending := p);
    var disp', todo := SettleChain(c, disp, d), OutEdges(w.graph, Last(c));
    forall n | n in s'.results && n < w.graph.size && n !in disp'
      ensures s'.results[n] == Skipped && exists i | i in InEdges(w.graph, n) :: Dead(w.graph, disp', todo, i)
    {
      var i :| i in InEdges(w.graph, n) && Dead(w.graph, disp, {}, i);
      assert Dead(w.graph, disp', todo, i);
    }
    forall i | 0 <= i < |w.graph.edges| && Dead(w.graph, disp', todo, i)
      ensures w.graph.edges[i].dst in s'.results
    {
      assert Dead(w.graph, disp, {}, i);
    }
  }

  /** A whole chain settles; the tail's successors are still to be visited. */
  lemma SettleChainKeeps(w: Workflow, s: State, disp: Dispositions, k: nat, v: Value, d: Disposition, p: map<nat, nat>)
    requires WellFormed(w) && Inv(w, s, disp, {}) && Untouched(w, s, disp, k) && d != Batched
    requires ClearedWithin(w.chains[k], s.pending, p)
    ensures Inv(w, Record(s, Last(w.chains[k]), v).(pending := p),
                SettleChain(w.chains[k], disp, d), OutEdges(w.graph, Last(w.chains[k])))
    ensures Grows(s, Record(s, Last(w.chains[k]), v).(pending := p)) && !NonTail(w.chains, Last(w.chains[k]))
  {
    hide Counted, Settled, Queued, InFlight, Marked, WellFormed, Waiting, Grows;
    ChainCounted(w, s, disp, k, v, d, p);
    ChainSettled(w, s, disp, k, v, d, p);
    ChainOthersWait(w, s, disp, k, v, d, p);
    ChainMarked(w, s, disp, k, v, d, p);
    TailIsNoNonTail(w, k);
  }

  lemma InnerWaits(w: Workflow, s: State, disp: Dispositions, k: nat, j: nat)
    requires WellFormed(w) && Untouched(w, s, disp, k) && 1 <= j < |w.chains[k]|
    ensures Waiting(w.graph, disp, {}, w.chains[k][j]) != {}
  {
    assert IsChain(w.graph, w.chains[k]) && Link(w.graph, w.chains[k][j - 1], w.chains[k][j - 1 + 1]);
    var e: nat :| OutEdges(w.graph, w.chains[k][j - 1]) == {e} && InEdges(w.graph, w.chains[k][j]) == {e};
    assert e in OutEdges(w.graph, w.chains[k][j - 1]) && e in InEdges(w.graph, w.chains[k][j]);
    assert w.chains[k][j - 1] !in disp;
    assert e in Waiting(w.graph, disp, {}, w.chains[k][j]);
  }

  lemma SettledChainIsNotStalled(w: Workflow, s: State, disp: Dispositions, k: nat, v: Value, d: Disposition,
                                 p: map<nat, nat>)
    requires WellFormed(w) && Untouched(w, s, disp, k)
    ensures StalledNodes(w, Record(s, Last(w.chains[k]), v).(pending := p),
                         SettleChain(w.chains[k], disp, d), OutEdges(w.graph, Last(w.chains[k])))
         == StalledNodes(w, s, disp, {}) - {w.chains[k][0]}
  {
    var c := w.chains[k];
    var s', disp', todo := Record(s, Last(c), v).(pending := p), SettleChain(c, disp, d), OutEdges(w.graph, Last(c));
    assert forall n :: Idle(s', n) == Idle(s, n);
    forall n: nat | n < w.graph.size
      ensures Stalled(w, s', disp', todo, n) <==> Stalled(w, s, disp, {}, n) && n != c[0]
    {
      StalledBesideChain(w, s, disp, k, d, n);
    }
    hide Stalled;
  }

  lemma StalledBesideChain(w: Workflow, s: State, disp: Dispositions, k: nat, d: Disposition, n: nat)
    requires WellFormed(w) && Untouched(w, s, disp, k)
    ensures var disp', todo := SettleChain(w.chains[k], disp, d), OutEdges(w.graph, Last(w.chains[k]));
            n !in disp' && Waiting(w.graph, disp', todo, n) == {}
            <==> n !in disp && Waiting(w.graph, disp, {}, n) == {} && n != w.chains[k][0]
  {
    var c := w.chains[k];
    ChainWaitingAt(w, disp, k, d, n);
    SettleChainAt(c, disp, d, n);
    if n in c {
      var j :| 0 <= j < |c| && c[j] == n;
      if j > 0 { InnerWaits(w, s, disp, k, j); }
    }
  }

  // ----- whole handlers -----

  /** What a finished job settles: its node, or its whole chain with the tail settling as d. */
  function SettleJob(w: Workflow, disp: Dispositions, job: Job, d: Disposition): Dispositions {
    match job.chain
    case None => disp[job.node := d]
    case Some(k) => if k < |w.chains| && w.chains[k] != [] then SettleChain(w.chains[k], disp, d) else disp
  }

  /** A job taken out of the queue or the in-flight set, ready to settle. */
  ghost predicate Settling(w: Workflow, s: State, disp: Dispositions, job: Job) {
    && Due(w, disp, {}, job.node) && Idle(s, job.node)
    && match job.chain
       case None => !InChains(w.chains, job.node)
       case Some(k) => k < |w.chains| && w.chains[k] != [] && w.chains[k][0] == job.node
  }

  ghost predicate ClearedFor(w: Workflow, s: State, job: Job, p: map<nat, nat>) {
    match job.chain
    case None => p == s.pending
    case Some(k) => k < |w.chains| && ClearedWithin(w.chains[k], s.pending, p)
  }

  lemma ClearChainClears(w: Workflow, s: State, disp: Dispositions, job: Job)
    requires WellFormed(w) && Counted(w, s, disp, {}) && Settling(w, s, disp, job)
    ensures ClearedFor(w, s, job, ClearChain(w, Reporter(w, job), s.pending))
    ensures ClearedFor(w, s, job, s.pending)
  {
    hide Due, Idle, WellFormed, Waiting, NonTail, IsHead;
    ChainOfFinds(w.chains, Reporter(w, job));
    match job.chain
    case None =>
    case Some(k) =>
      ChainFacts(w, k);
      TailIsNoNonTail(w, k);
      assert Reporter(w, job) in w.chains[k];
      assert ChainOf(w.chains, Reporter(w, job)) == Some(k);
  }

  lemma SettleJobKeeps(w: Workflow, s: State, disp: Dispositions, job: Job, v: Value, d: Disposition, p: map<nat, nat>)
    requires WellFormed(w) && Inv(w, s, disp, {}) && Settling(w, s, disp, job) && d != Batched
             && ClearedFor(w, s, job, p)
    ensures var u := Reporter(w, job);
            var s1, disp1, todo := Record(s, u, v).(pending := p), SettleJob(w, disp, job, d), OutEdges(w.graph, u);
            && Inv(w, s1, disp1, todo) && Grows(s, s1)
            && u in disp1 && disp1[u] == d && !NonTail(w.chains, u)
            && StalledNodes(w, s1, disp1, todo) == StalledNodes(w, s, disp, {}) - {job.node}
  {
    hide Inv, Grows, StalledNodes, WellFormed, Idle, Due, Untouched, NonTail;
    match job.chain
    case None =>
      SettleKeeps(w, s, disp, job.node, v, d);
      assert Record(s, job.node, v).(pending := p) == Record(s, job.node, v);
      NotSettled(w, s, disp, job.node);
      SettledIsNotStalled(w, s, disp, job.node, v, d);
    case Some(k) =>
      ChainUntouched(w, s, disp, k);
      SettleChainKeeps(w, s, disp, k, v, d, p);
      SettledChainIsNotStalled(w, s, disp, k, v, d, p);
  }

  lemma NotSettled(w: Workflow, s: State, disp: Dispositions, n: nat)
    requires Due(w, disp, {}, n)
    ensures n !in disp
  {
  }

  /** A settled job walks over its successors and hands the invariant back. */
  lemma FinishKeeps(w: Workflow, s: State, disp: Dispositions, job: Job, v: Value, walk: Walk, p: map<nat, nat>)
    returns (disp': Dispositions)
    requires WellFormed(w) && Inv(w, s, disp, {}) && Settling(w, s, disp, job) && ClearedFor(w, s, job, p)
    ensures var u := Reporter(w, job);
            var s' := WalkAll(w, Record(s, u, v).(pending := p), u, walk);
            && Inv(w, s', disp', {}) && Grows(s, s')
            && Extends(w, SettleJob(w, disp, job, WalkOf(walk)), s', disp')
            && s'.executing == s.executing && s'.status == s.status
            && u in s'.results && s'.results[u] == v
            && StalledNodes(w, s', disp', {})
               == StalledNodes(w, s, disp, {}) - {job.node}
                  + StrandedByWalk(w, Record(s, u, v).(pending := p), u, walk, |w.graph.edges|)
  {
    hide Inv, StalledNodes, StrandedByWalk, WellFormed, WalkEdges, Settling, NonTail, NoConditions;
    hide ClearedFor, SettleJob;
    var u := Reporter(w, job);
    SettleJobKeeps(w, s, disp, job, v, WalkOf(walk), p);
    assert Below(w.graph, u, |w.graph.edges|) == OutEdges(w.graph, u);
    disp' := WalkKeeps(w, Record(s, u, v).(pending := p), SettleJob(w, disp, job, WalkOf(walk)), u, walk,
                       |w.graph.edges|);
  }

  // ----- steps -----

  /** How a failure that does not end the run settles its node. */
  function FailureOf(w: Workflow, u: nat): Disposition {
    if RoutesErrors(w.graph, u) then Routed else Opened
  }

  function OutcomeOf(w: Workflow, u: nat, outcome: Result<string>): Disposition {
    if outcome.Ok? then Succeeded else FailureOf(w, u)
  }

  /** The value a completion leaves in `results`. */
  function OutcomeValue(w: Workflow, u: nat, outcome: Result<string>): Value {
    match outcome
    case Ok(raw) => Admit(w.policy, raw)
    case Err(error) =>
      if RoutesErrors(w.graph, u) then RoutedError(w.policy.redact(error), u)
      else ContinuedError(w.policy.redact(error))
  }

  /** What a step settles, before any condition-skips. */
  function Settles(w: Workflow, s: State, disp: Dispositions, e: Event): Dispositions
    requires Enabled(w, s, e)
  {
    match e
    case Pop(i, decision) =>
      var n := s.ready[i];
      if ChainOf(w.chains, n).Some? then disp
      else (match decision
            case Resolve(_) => disp[n := Opened]
            case Reject(_) => disp[n := FailureOf(w, n)]
            case _ => disp)
    case Finish(i, outcome) =>
      SettleJob(w, disp, s.executing[i], OutcomeOf(w, Reporter(w, s.executing[i]), outcome))
  }

  /** The job a popped node becomes: its chain's if it heads one. */
  function PoppedJob(w: Workflow, s: State, i: nat): Job
    requires i < |s.ready|
  {
    Job(s.ready[i], ChainOf(w.chains, s.ready[i]), InputsOf(w.graph, s.results, s.ready[i]))
  }

  predicate Launches(w: Workflow, s: State, e: Event)
    requires e.Pop? ==> e.index < |s.ready|
  {
    e.Pop? && (ChainOf(w.chains, s.ready[e.index]).Some? || e.decision == Dispatch)
  }

  /** The jobs in flight after a step. */
  function NextExecuting(w: Workflow, s: State, e: Event): seq<Job>
    requires Enabled(w, s, e)
  {
    match e
    case Pop(i, _) => if Launches(w, s, e) then s.executing + [PoppedJob(w, s, i)] else s.executing
    case Finish(i, _) => Without(s.executing, i)
  }

  /** The node whose result a step records, with the value. */
  function Records(w: Workflow, s: State, e: Event): Option<(nat, Value)>
    requires Enabled(w, s, e)
  {
    match e
    case Pop(i, decision) =>
      var n := s.ready[i];
      if ChainOf(w.chains, n).Some? then None
      else (match decision
            case Resolve(v) => Some((n, v))
            case Reject(m) => Some((n, OutcomeValue(w, n, Err(m))))
            case _ => None)
    case Finish(i, outcome) =>
      var u := Reporter(w, s.executing[i]);
      Some((u, OutcomeValue(w, u, outcome)))
  }

  /** The nodes stranded by the cascades of a completion: only a success walk has any. */
  function StrandedByCompletion(w: Workflow, s: State, u: nat, outcome: Result<string>): set<nat> {
    match outcome
    case Ok(raw) =>
      var output := Admit(w.policy, raw);
      StrandedByWalk(w, s.(results := s.results[u := output], pending := ClearChain(w, u, s.pending)),
                     u, OnSuccess(output), |w.graph.edges|)
    case Err(_) => {}
  }

  function StrandedByStep(w: Workflow, s: State, e: Event): set<nat>
    requires Enabled(w, s, e)
  {
    match e
    case Pop(_, _) => {}
    case Finish(i, outcome) =>
      StrandedByCompletion(w, s.(executing := Without(s.executing, i)), Reporter(w, s.executing[i]), outcome)
  }

  lemma NothingStrandedWithoutConditions(w: Workflow, s: State, e: Event)
    requires Enabled(w, s, e) && NoConditions(w.graph)
    ensures StrandedByStep(w, s, e) == {}
  {
    if e.Finish? && e.outcome.Ok? {
      var u, output := Reporter(w, s.executing[e.index]), Admit(w.policy, e.outcome.value);
      var s1 := s.(executing := Without(s.executing, e.index));
      OnlyConditionsStrand(w, s1.(results := s.results[u := output], pending := ClearChain(w, u, s.pending)),
                           u, OnSuccess(output), |w.graph.edges|);
    }
  }

  lemma CompleteKeeps(w: Workflow, s: State, disp: Dispositions, job: Job, outcome: Result<string>)
    returns (disp': Dispositions)
    requires WellFormed(w) && Inv(w, s, disp, {}) && Settling(w, s, disp, job) && s.status == Running
    ensures var u := Reporter(w, job);
            var s' := Complete(w, s, u, outcome);
            && Grows(s, s')
            && (s'.status == Running ==>
                  && Inv(w, s', disp', {})
                  && Extends(w, SettleJob(w, disp, job, OutcomeOf(w, u, outcome)), s', disp')
                  && s'.executing == s.executing
                  && u in s'.results && s'.results[u] == OutcomeValue(w, u, outcome)
                  && StalledNodes(w, s', disp', {})
                     == StalledNodes(w, s, disp, {}) - {job.node} + StrandedByCompletion(w, s, u, outcome))
  {
    hide StalledNodes, StrandedByWalk, WellFormed, WalkEdges, Settling, NonTail, NoConditions, SettleJob;
    hide RoutesErrors, ClearChain;
    var u := Reporter(w, job);
    var v := OutcomeValue(w, u, outcome);
    ClearChainClears(w, s, disp, job);
    hide Inv, ClearedFor;
    var p := ClearChain(w, u, s.pending);
    disp' := disp;
    if outcome.Ok? {
      disp' := FinishKeeps(w, s, disp, job, v, OnSuccess(v), p);
      assert Record(s, u, v).(pending := p) == s.(results := s.results[u := v], pending := p);
    } else if RoutesErrors(w.graph, u) {
      disp' := FinishKeeps(w, s, disp, job, v, OnErrorRoute, p);
      OnlyConditionsStrand(w, Record(s, u, v).(pending := p), u, OnErrorRoute, |w.graph.edges|);
      assert Record(s, u, v).(pending := p) == s.(results := s.results[u := v], pending := p);
    } else if u in w.continueOnError {
      disp' := FinishKeeps(w, s, disp, job, v, OnUnblock, s.pending);
      OnlyConditionsStrand(w, Record(s, u, v).(pending := s.pending), u, OnUnblock, |w.graph.edges|);
      assert Record(s, u, v).(pending := s.pending) == s.(results := s.results[u := v]);
    }
  }

  /** Without edge conditions a chain settles as a whole, under its tail. */
  ghost predicate WholeChains(w: Workflow, disp: Dispositions) {
    forall k, j | 0 <= k < |w.chains| && 0 <= j < |w.chains[k]| && w.chains[k][0] in disp ::
      w.chains[k][j] in disp && (j < |w.chains[k]| - 1 ==> disp[w.chains[k][j]] == Batched)
  }

  ghost predicate Live(w: Workflow, s: State, disp: Dispositions) {
    StalledNodes(w, s, disp, {}) == {} && WholeChains(w, disp)
  }

  lemma LooseNodeKeepsChainsWhole(w: Workflow, disp: Dispositions, n: nat, d: Disposition)
    requires WholeChains(w, disp) && !InChains(w.chains, n)
    ensures WholeChains(w, disp[n := d])
  {
    forall k, j | 0 <= k < |w.chains| && 0 <= j < |w.chains[k]| && w.chains[k][0] in disp[n := d]
      ensures w.chains[k][j] in disp[n := d]
              && (j < |w.chains[k]| - 1 ==> disp[n := d][w.chains[k][j]] == Batched)
    {
      assert w.chains[k][0] in w.chains[k] && w.chains[k][j] in w.chains[k];
    }
  }

  lemma ChainKeepsChainsWhole(w: Workflow, disp: Dispositions, k: nat, d: Disposition)
    requires WellFormed(w) && k < |w.chains| && WholeChains(w, disp)
    ensures w.chains[k] != [] && WholeChains(w, SettleChain(w.chains[k], disp, d))
  {
    hide WellFormed, IsHead, NonTail;
    TailIsNoNonTail(w, k);
    ChainFacts(w, k);
    var disp' := SettleChain(w.chains[k], disp, d);
    forall l, j | 0 <= l < |w.chains| && 0 <= j < |w.chains[l]| && w.chains[l][0] in disp'
      ensures w.chains[l][j] in disp' && (j < |w.chains[l]| - 1 ==> disp'[w.chains[l][j]] == Batched)
    {
      assert w.chains[l][0] in w.chains[l] && w.chains[l][j] in w.chains[l];
      if w.chains[l][0] in w.chains[k] || w.chains[l][j] in w.chains[k] {
        assert l == k;
      }
    }
  }

  lemma JobKeepsChainsWhole(w: Workflow, s: State, disp: Dispositions, job: Job, d: Disposition)
    requires WellFormed(w) && WholeChains(w, disp) && Settling(w, s, disp, job)
    ensures WholeChains(w, SettleJob(w, disp, job, d))
  {
    hide WellFormed, Due, Idle, WholeChains;
    match job.chain
    case None => LooseNodeKeepsChainsWhole(w, disp, job.node, d);
    case Some(k) => ChainKeepsChainsWhole(w, disp, k, d);
  }

  /** What a step guarantees of the state and the dispositions after it. */
  ghost predicate StepOk(w: Workflow, s: State, disp: Dispositions, e: Event, s': State, disp': Dispositions)
    requires Enabled(w, s, e)
  {
    && Grows(s, s')
    && (s'.status == Running ==>
          && Inv(w, s', disp', {})
          && s'.executing == NextExecuting(w, s, e)
          && Extends(w, Settles(w, s, disp, e), s', disp')
          && (var r := Records(w, s, e);
              r.Some? ==> r.value.0 in s'.results && s'.results[r.value.0] == r.value.1)
          && StalledNodes(w, s', disp', {}) == StalledNodes(w, s, disp, {}) + StrandedByStep(w, s, e)
          && (WholeChains(w, disp) ==> WholeChains(w, Settles(w, s, disp, e))))
  }

  lemma ReadyNodeIsLooseOrHead(w: Workflow, s: State, disp: Dispositions, i: nat)
    requires Inv(w, s, disp, {}) && i < |s.ready|
    ensures var k := ChainOf(w.chains, s.ready[i]);
            && (k.None? ==> !InChains(w.chains, s.ready[i]))
            && (k.Some? ==> k.value < |w.chains| && w.chains[k.value] != []
                            && w.chains[k.value][0] == s.ready[i] && IsHead(w.chains, s.ready[i]))
  {
    var n := s.ready[i];
    ChainOfFinds(w.chains, n);
    assert !Inner(w.chains, n);
    if ChainOf(w.chains, n).Some? {
      var c := w.chains[ChainOf(w.chains, n).value];
      var j :| 0 <= j < |c| && c[j] == n;
    }
  }

  lemma TakePopped(w: Workflow, s: State, disp: Dispositions, i: nat)
    requires Inv(w, s, disp, {}) && i < |s.ready|
    ensures var s1, job := s.(ready := Without(s.ready, i)), PoppedJob(w, s, i);
            && Inv(w, s1, disp, {}) && Settling(w, s1, disp, job) && JobOk(w, s1, job)
            && (job.chain.Some? ==> IsHead(w.chains, job.node))
            && StalledNodes(w, s1, disp, {}) == StalledNodes(w, s, disp, {}) + {job.node}
            && job.node !in StalledNodes(w, s, disp, {})
  {
    TakeReady(w, s, disp, i);
    ReadyNodeIsLooseOrHead(w, s, disp, i);
    hide Inv, StalledNodes, Due, Idle, InChains, IsHead, Gather;
  }

  lemma PopLaunches(w: Workflow, s: State, disp: Dispositions, i: nat, decision: Decision)
    requires WellFormed(w) && Inv(w, s, disp, {}) && Enabled(w, s, Pop(i, decision))
    requires ChainOf(w.chains, s.ready[i]).Some? || decision == Dispatch
    ensures StepOk(w, s, disp, Pop(i, decision), Step(w, s, Pop(i, decision)), disp)
  {
    hide Inv, StalledNodes, WellFormed, WholeChains, Due, Idle, InChains, IsHead, NoConditions, JobOk, Gather;
    var s1 := s.(ready := Without(s.ready, i));
    TakePopped(w, s, disp, i);
    LaunchKeeps(w, s1, disp, PoppedJob(w, s, i));
    assert Step(w, s, Pop(i, decision)) == s1.(executing := s1.executing + [PoppedJob(w, s, i)]);
  }

  lemma PopResolves(w: Workflow, s: State, disp: Dispositions, i: nat, v: Value) returns (disp': Dispositions)
    requires WellFormed(w) && Inv(w, s, disp, {}) && Enabled(w, s, Pop(i, Resolve(v)))
    requires ChainOf(w.chains, s.ready[i]).None?
    ensures StepOk(w, s, disp, Pop(i, Resolve(v)), Step(w, s, Pop(i, Resolve(v))), disp')
  {
    hide Inv, StalledNodes, WellFormed, WholeChains, Settling, IsHead, NoConditions, JobOk, Gather, WalkEdges;
    var job, s1 := PoppedJob(w, s, i), s.(ready := Without(s.ready, i));
    TakePopped(w, s, disp, i);
    if WholeChains(w, disp) {
      JobKeepsChainsWhole(w, s1, disp, job, Opened);
    }
    disp' := FinishKeeps(w, s1, disp, job, v, OnUnblock, s1.pending);
    OnlyConditionsStrand(w, Record(s1, job.node, v).(pending := s1.pending), job.node, OnUnblock, |w.graph.edges|);
    assert Record(s1, job.node, v).(pending := s1.pending) == s1.(results := s.results[job.node := v]);
  }

  lemma PopRejects(w: Workflow, s: State, disp: Dispositions, i: nat, m: string) returns (disp': Dispositions)
    requires WellFormed(w) && Inv(w, s, disp, {}) && Enabled(w, s, Pop(i, Reject(m)))
    requires ChainOf(w.chains, s.ready[i]).None?
    ensures StepOk(w, s, disp, Pop(i, Reject(m)), Step(w, s, Pop(i, Reject(m))), disp')
  {
    hide Inv, StalledNodes, WellFormed, WholeChains, Settling, IsHead, NoConditions, JobOk, Gather, Fail, RoutesErrors;
    var job, s1 := PoppedJob(w, s, i), s.(ready := Without(s.ready, i));
    TakePopped(w, s, disp, i);
    if WholeChains(w, disp) {
      JobKeepsChainsWhole(w, s1, disp, job, FailureOf(w, job.node));
    }
    disp' := CompleteKeeps(w, s1, disp, job, Err(m));
  }

  lemma FinishSettles(w: Workflow, s: State, disp: Dispositions, i: nat, outcome: Result<string>)
    returns (disp': Dispositions)
    requires WellFormed(w) && Inv(w, s, disp, {}) && Enabled(w, s, Finish(i, outcome))
    ensures StepOk(w, s, disp, Finish(i, outcome), Step(w, s, Finish(i, outcome)), disp')
  {
    hide Inv, StalledNodes, WellFormed, WholeChains, Settling, NoConditions, Complete, OutcomeOf;
    hide OutcomeValue, SettleJob, StrandedByCompletion;
    var job := s.executing[i];
    var s1 := s.(executing := Without(s.executing, i));
    TakeJob(w, s, disp, i);
    TakenJobSettles(w, s, disp, i);
    if WholeChains(w, disp) {
      JobKeepsChainsWhole(w, s1, disp, job, OutcomeOf(w, Reporter(w, job), outcome));
    }
    disp' := CompleteKeeps(w, s1, disp, job, outcome);
  }

  lemma TakenJobSettles(w: Workflow, s: State, disp: Dispositions, i: nat)
    requires Inv(w, s, disp, {}) && i < |s.executing|
    ensures Settling(w, s.(executing := Without(s.executing, i)), disp, s.executing[i])
  {
    TakeJob(w, s, disp, i);
    assert JobOk(w, s, s.executing[i]);
  }

  /** Every enabled step keeps the invariant, whatever the environment chose. */
  lemma StepKeeps(w: Workflow, s: State, disp: Dispositions, e: Event) returns (disp': Dispositions)
    requires WellFormed(w) && Inv(w, s, disp, {}) && Enabled(w, s, e)
    ensures StepOk(w, s, disp, e, Step(w, s, e), disp')
  {
    match e
    case Finish(i, outcome) => disp' := FinishSettles(w, s, disp, i, outcome);
    case Pop(i, decision) =>
      disp' := disp;
      if ChainOf(w.chains, s.ready[i]).Some? || decision == Dispatch {
        PopLaunches(w, s, disp, i, decision);
      } else if decision.Resolve? {
        disp' := PopResolves(w, s, disp, i, decision.value);
      } else if decision.Reject? {
        disp' := PopRejects(w, s, disp, i, decision.message);
      } else {
        DueHasNoResult(w, s, disp, {}, s.ready[i]);
      }
  }
}
