/** The streaming detector: the friendship graph and the purchase ledger,
    seeded from the historical log and then updated one stream event at a
    time. Two variants of the stream are modelled: `Deployed`, the main
    program, and `Script`, an earlier top-level script that differs in how
    it treats purchases by users outside the graph and in its standard
    deviation. */
module Detector {
  import opened Basics
  import opened FriendGraph
  import opened PurchaseLedger
  import opened Anomaly
  import opened Events

  datatype Variant = Deployed | Script

  /** What the detector holds between two events. */
  datatype State = State(adj: Graph, ledger: seq<Purchase>)

  /** The graph change a validated event makes: purchases make none, and an
      unfriend of a missing edge makes none either. */
  function ApplyFriendship(g: Graph, ev: Event): (r: Graph)
    ensures Symmetric(g) ==> Symmetric(r)
  {
    match ev
    case Befriend(a, b) => AddEdge(g, a, b)
    case Unfriend(a, b) => (match RemoveEdge(g, a, b) case None => g case Some(h) => h)
    case Buy(_, _) => g
  }

  /** The friendship events of `rows` applied to `g`, in order. */
  function Befriendings(g: Graph, rows: seq<Event>): (r: Graph)
    ensures Symmetric(g) ==> Symmetric(r)
  {
    if rows == [] then g
    else ApplyFriendship(Befriendings(g, rows[..|rows| - 1]), rows[|rows| - 1])
  }

  /** The purchase events of `rows`, in order. */
  function PurchasesOf(rows: seq<Event>): (r: seq<Purchase>)
    ensures |r| <= |rows|
  {
    if rows == [] then []
    else
      var n := |rows| - 1;
      PurchasesOf(rows[..n]) + (match rows[n] case Buy(id, amount) => [Purchase(id, amount)] case _ => [])
  }

  /** The state the historical rows leave behind: the graph of their
      friendship events and the ledger of their purchases. */
  function Seeded(rows: seq<Event>): State
  {
    State(Befriendings(map[], rows), PurchasesOf(rows))
  }

  /** The score of purchase `p` against state `s`: its neighbourhood, the
      window of its neighbours' recent amounts, and the flag rule. */
  function Score(s: State, cfg: Config, p: Purchase, kind: Ddof): Option<Flag>
  {
    Analyze(Window(s.ledger, Neighbourhood(s.adj, p.id, cfg.d), cfg.t), p, kind)
  }

  /** A valid purchase. `Deployed` appends every purchase and scores it
      unless the buyer is absent from the graph or has no edge. `Script`
      drops purchases by buyers absent from the graph and scores all others
      with the sample deviation. Scoring always sees the state before the
      append. */
  function BuyStep(s: State, cfg: Config, v: Variant, p: Purchase): (State, Option<Flag>)
  {
    match v
    case Deployed =>
      if p.id !in s.adj || s.adj[p.id] == {} then (s.(ledger := s.ledger + [p]), None)
      else (s.(ledger := s.ledger + [p]), Score(s, cfg, p, Population))
    case Script =>
      if p.id !in s.adj then (s, None)
      else (s.(ledger := s.ledger + [p]), Score(s, cfg, p, Sample))
  }

  /** One stream event, checked field by field as it arrives. */
  function Step(s: State, cfg: Config, v: Variant, e: RawEvent): (State, Option<Flag>)
  {
    if e.eventType == "befriend" then
      if e.id1.None? || e.id2.None? then (s, None)
      else (s.(adj := AddEdge(s.adj, e.id1.value, e.id2.value)), None)
    else if e.eventType == "unfriend" then
      if e.id1.None? || e.id2.None? then (s, None)
      else
        match RemoveEdge(s.adj, e.id1.value, e.id2.value)
        case None => (s, None)
        case Some(g) => (s.(adj := g), None)
    else if e.eventType == "purchase" then
      if e.id.None? || e.amount.None? then (s, None)
      else BuyStep(s, cfg, v, Purchase(e.id.value, e.amount.value))
    else (s, None)
  }

  /** The stream processed event by event: the final state and the flagged
      purchases in arrival order. */
  function Replay(s: State, cfg: Config, v: Variant, events: seq<RawEvent>): (State, seq<Flag>)
  {
    if events == [] then (s, [])
    else
      var before := Replay(s, cfg, v, events[..|events| - 1]);
      var after := Step(before.0, cfg, v, events[|events| - 1]);
      (after.0, before.1 + (if after.1.Some? then [after.1.value] else []))
  }

  /** An event that the historical cleaning would drop changes nothing when
      it arrives on the stream either. */
  lemma StepSkipsInvalid(s: State, cfg: Config, v: Variant, e: RawEvent)
    requires Parse(e).None?
    ensures Step(s, cfg, v, e) == (s, None)
  {
  }

  /** On a valid event the stream makes the same graph change as seeding. */
  lemma StepGraph(s: State, cfg: Config, v: Variant, e: RawEvent)
    ensures Step(s, cfg, v, e).0.adj == (if Parse(e).Some? then ApplyFriendship(s.adj, Parse(e).value) else s.adj)
  {
  }

  lemma BefriendingsSnoc(g: Graph, rows: seq<Event>, ev: Event)
    ensures Befriendings(g, rows + [ev]) == ApplyFriendship(Befriendings(g, rows), ev)
  {
    assert (rows + [ev])[..|rows|] == rows;
  }

  lemma PurchasesOfSnoc(rows: seq<Event>, ev: Event)
    ensures PurchasesOf(rows + [ev]) == PurchasesOf(rows) + (match ev case Buy(id, amount) => [Purchase(id, amount)] case _ => [])
  {
    assert (rows + [ev])[..|rows|] == rows;
  }

  /** The ledger seeding keeps holds exactly the historical purchases. */
  lemma {:induction false} PurchasesOfMembers(rows: seq<Event>, p: Purchase)
    ensures p in PurchasesOf(rows) <==> Buy(p.id, p.amount) in rows
  {
    if rows != [] {
      var n := |rows| - 1;
      PurchasesOfMembers(rows[..n], p);
      assert rows == rows[..n] + [rows[n]];
    }
  }

  /** The purchases of consecutive stretches of rows follow one another, so
      the ledger keeps the rows' order. */
  lemma {:induction false} PurchasesOfConcat(a: seq<Event>, b: seq<Event>)
    ensures PurchasesOf(a + b) == PurchasesOf(a) + PurchasesOf(b)
    decreases |b|
  {
    if b == [] {
      assert a + b == a;
    } else {
      var n := |b| - 1;
      PurchasesOfConcat(a, b[..n]);
      assert (a + b)[..|a + b| - 1] == a + b[..n];
    }
  }

  lemma ValidatedSnoc(rows: seq<RawEvent>, e: RawEvent)
    ensures Validated(rows + [e]) == Validated(rows) + (if Parse(e).Some? then [Parse(e).value] else [])
  {
    assert (rows + [e])[..|rows|] == rows;
  }

  /** Whatever the variant, the graph after a stream is the graph its valid
      friendship events make, in arrival order. */
  lemma {:induction false} ReplayGraph(s: State, cfg: Config, v: Variant, events: seq<RawEvent>)
    ensures Replay(s, cfg, v, events).0.adj == Befriendings(s.adj, Validated(events))
  {
    if events != [] {
      var n := |events| - 1;
      var init, e := events[..n], events[n];
      assert events == init + [e];
      var mid := Replay(s, cfg, v, init).0;
      ReplaySnoc(s, cfg, v, init, e);
      ReplayGraph(s, cfg, v, init);
      StepGraph(mid, cfg, v, e);
      ValidatedSnoc(init, e);
      if Parse(e).Some? {
        BefriendingsSnoc(s.adj, Validated(init), Parse(e).value);
      } else {
        assert Validated(events) == Validated(init);
      }
    }
  }

  /** In the deployed variant the ledger after a stream is the old ledger
      followed by every valid purchase of the stream, in arrival order. */
  lemma {:induction false} ReplayLedger(s: State, cfg: Config, events: seq<RawEvent>)
    ensures Replay(s, cfg, Deployed, events).0.ledger == s.ledger + PurchasesOf(Validated(events))
  {
    if events != [] {
      var n := |events| - 1;
      var init, e := events[..n], events[n];
      assert events == init + [e];
      var mid := Replay(s, cfg, Deployed, init).0;
      ReplaySnoc(s, cfg, Deployed, init, e);
      ReplayLedger(s, cfg, init);
      ValidatedSnoc(init, e);
      if Parse(e).Some? {
        PurchasesOfSnoc(Validated(init), Parse(e).value);
      } else {
        assert Validated(events) == Validated(init);
      }
    }
  }

  /** 1 for a valid purchase, 0 for anything else. */
  function BuyCount(e: RawEvent): nat
  {
    if Parse(e).Some? && Parse(e).value.Buy? then 1 else 0
  }

  lemma StepLedgerGrows(s: State, cfg: Config, v: Variant, e: RawEvent)
    ensures s.ledger <= Step(s, cfg, v, e).0.ledger
    ensures |Step(s, cfg, v, e).0.ledger| <= |s.ledger| + BuyCount(e)
  {
  }

  lemma PurchaseCountSnoc(rows: seq<RawEvent>, e: RawEvent)
    ensures |PurchasesOf(Validated(rows + [e]))| == |PurchasesOf(Validated(rows))| + BuyCount(e)
  {
    ValidatedSnoc(rows, e);
    if Parse(e).Some? {
      PurchasesOfSnoc(Validated(rows), Parse(e).value);
    } else {
      assert Validated(rows + [e]) == Validated(rows);
    }
  }

  /** In either variant the ledger only grows at its end, by at most one
      record per valid purchase. */
  lemma {:induction false} ReplayLedgerGrows(s: State, cfg: Config, v: Variant, events: seq<RawEvent>)
    ensures s.ledger <= Replay(s, cfg, v, events).0.ledger
    ensures |Replay(s, cfg, v, events).0.ledger| <= |s.ledger| + |PurchasesOf(Validated(events))|
  {
    if events != [] {
      var n := |events| - 1;
      var init, e := events[..n], events[n];
      assert events == init + [e];
      var mid := Replay(s, cfg, v, init).0;
      ReplaySnoc(s, cfg, v, init, e);
      ReplayLedgerGrows(s, cfg, v, init);
      StepLedgerGrows(mid, cfg, v, e);
      PurchaseCountSnoc(init, e);
    }
  }

  /** Seeding from the historical rows leaves the state that streaming the
      same rows through the deployed variant, from nothing, would leave. */
  lemma SeedIsDeployedReplay(cfg: Config, rows: seq<RawEvent>)
    ensures Seeded(Validated(rows)) == Replay(State(map[], []), cfg, Deployed, rows).0
  {
    ReplayGraph(State(map[], []), cfg, Deployed, rows);
    ReplayLedger(State(map[], []), cfg, rows);
  }

  /** A purchase never counts towards its own score: its own record is
      outside its neighbourhood, so appending it first would not change the
      window. */
  lemma OwnPurchaseNotInWindow(s: State, cfg: Config, p: Purchase, kind: Ddof)
    ensures Score(s.(ledger := s.ledger + [p]), cfg, p, kind) == Score(s, cfg, p, kind)
  {
    WindowIgnoresOthers(s.ledger, p, Neighbourhood(s.adj, p.id, cfg.d), cfg.t);
  }

  /** A buyer outside the graph, or with no friend other than themself, is
      never flagged. */
  lemma IsolatedNeverFlagged(s: State, cfg: Config, v: Variant, e: RawEvent)
    requires e.eventType == "purchase" && e.id.Some?
    requires e.id.value !in s.adj || s.adj[e.id.value] <= {e.id.value}
    ensures Step(s, cfg, v, e).1 == None
  {
    if e.amount.Some? {
      var p := Purchase(e.id.value, e.amount.value);
      IsolatedHasNoNeighbourhood(s.adj, p.id, cfg.d);
      EmptyWindow(s.ledger, cfg.t);
      assert Window(s.ledger, Neighbourhood(s.adj, p.id, cfg.d), cfg.t) == [];
      assert BuyStep(s, cfg, v, p).1 == None;
    }
  }

  /** What the script flags, the deployed program flags too. */
  lemma ScriptFlagImpliesDeployedFlag(s: State, cfg: Config, e: RawEvent)
    requires Step(s, cfg, Script, e).1.Some?
    ensures Step(s, cfg, Deployed, e).1.Some?
  {
    var id := e.id.value;
    if s.adj[id] <= {id} {
      IsolatedNeverFlagged(s, cfg, Script, e);
    }
    SampleFlagImpliesPopulationFlag(Window(s.ledger, Neighbourhood(s.adj, id, cfg.d), cfg.t), Purchase(id, e.amount.value));
  }

  /** One more event at the end of the stream is one more step. */
  lemma ReplaySnoc(s: State, cfg: Config, v: Variant, init: seq<RawEvent>, e: RawEvent)
    ensures Replay(s, cfg, v, init + [e]).0 == Step(Replay(s, cfg, v, init).0, cfg, v, e).0
    ensures Replay(s, cfg, v, init + [e]).1 == Replay(s, cfg, v, init).1 + (if Step(Replay(s, cfg, v, init).0, cfg, v, e).1.Some? then [Step(Replay(s, cfg, v, init).0, cfg, v, e).1.value] else [])
  {
    assert (init + [e])[..|init|] == init;
  }

  /** The initial state of the stream on which the two variants part ways:
      users 1 and 2 are friends, and 2 bought twice for 10. */
  function DivergenceStart(): State
  {
    State(map[1 := {2}, 2 := {1}], [Purchase(2, 10.0), Purchase(2, 10.0)])
  }

  /** The stream on which the two variants part ways: user 3, not yet in the
      graph, buys for 1000, then befriends 1, who then buys for 50. */
  function DivergenceStream(): seq<RawEvent>
  {
    [RawEvent("purchase", Some(3), None, None, Some(1000.0), None, None),
     RawEvent("befriend", None, Some(1), Some(3), None, None, None),
     RawEvent("purchase", Some(1), None, None, Some(50.0), None, None)]
  }

  /** Over a whole stream the two variants part ways: once the script drops
      a purchase by a user not yet in the graph, its ledger no longer matches
      the deployed one, and a later purchase can be flagged by the script
      alone. Here the deployed window `[10, 10, 1000]` has mean 340, while
      the script's window `[10, 10]` flags the amount 50. */
  lemma ScriptFlagsWhatDeployedDoesNot()
    ensures Replay(DivergenceStart(), Config(100, 1), Script, DivergenceStream()).1 == [Flag(1, 50.0, 10.0, 0.0)]
    ensures Replay(DivergenceStart(), Config(100, 1), Deployed, DivergenceStream()).1 == []
  {
    DivergenceScriptRun();
    DivergenceDeployedRun();
  }

  /** The script drops the purchase by user 3, who is not in the graph yet,
      and flags the purchase by user 1. */
  lemma DivergenceScriptRun()
    ensures Replay(DivergenceStart(), Config(100, 1), Script, DivergenceStream()).1 == [Flag(1, 50.0, 10.0, 0.0)]
  {
    var cfg, s := Config(100, 1), DivergenceStart();
    var stream := DivergenceStream();
    var e0, e1, e2 := stream[0], stream[1], stream[2];
    assert [e0] == [] + [e0] && [e0, e1] == [e0] + [e1] && stream == [e0, e1] + [e2];
    var g := AddEdge(s.adj, 1, 3);
    ReplaySnoc(s, cfg, Script, [], e0);
    assert Step(s, cfg, Script, e0) == (s, None) by { assert 3 !in s.adj; }
    ReplaySnoc(s, cfg, Script, [e0], e1);
    assert Replay(s, cfg, Script, [e0, e1]) == (State(g, s.ledger), []);
    ReplaySnoc(s, cfg, Script, [e0, e1], e2);
    DivergenceGraph();
    DivergenceScriptWindow();
    assert Step(State(g, s.ledger), cfg, Script, e2).1 == Some(Flag(1, 50.0, 10.0, 0.0)) by {
      assert BuyStep(State(g, s.ledger), cfg, Script, Purchase(1, 50.0)).1 == Some(Flag(1, 50.0, 10.0, 0.0));
    }
  }

  /** The deployed program records the purchase by user 3, which sinks the
      window mean below the purchase by user 1. */
  lemma DivergenceDeployedRun()
    ensures Replay(DivergenceStart(), Config(100, 1), Deployed, DivergenceStream()).1 == []
  {
    var cfg, s := Config(100, 1), DivergenceStart();
    var stream := DivergenceStream();
    var e0, e1, e2 := stream[0], stream[1], stream[2];
    assert [e0] == [] + [e0] && [e0, e1] == [e0] + [e1] && stream == [e0, e1] + [e2];
    var g := AddEdge(s.adj, 1, 3);
    var ledger2 := s.ledger + [Purchase(3, 1000.0)];
    ReplaySnoc(s, cfg, Deployed, [], e0);
    assert Step(s, cfg, Deployed, e0) == (State(s.adj, ledger2), None) by { assert 3 !in s.adj; }
    ReplaySnoc(s, cfg, Deployed, [e0], e1);
    assert Replay(s, cfg, Deployed, [e0, e1]) == (State(g, ledger2), []);
    ReplaySnoc(s, cfg, Deployed, [e0, e1], e2);
    DivergenceGraph();
    DivergenceDeployedWindow();
    assert ledger2 == [Purchase(2, 10.0), Purchase(2, 10.0), Purchase(3, 1000.0)];
    assert Step(State(g, ledger2), cfg, Deployed, e2).1 == None by {
      assert BuyStep(State(g, ledger2), cfg, Deployed, Purchase(1, 50.0)).1 == None;
    }
  }

  /** After befriend(1, 3) in the graph 1-2, user 1 has two friends, which
      are its whole depth-1 neighbourhood. */
  lemma DivergenceGraph()
    ensures 1 in AddEdge(map[1 := {2}, 2 := {1}], 1, 3)
    ensures AddEdge(map[1 := {2}, 2 := {1}], 1, 3)[1] == {2, 3}
    ensures Neighbourhood(AddEdge(map[1 := {2}, 2 := {1}], 1, 3), 1, 1) == {2, 3}
  {
    var g0: Graph := map[1 := {2}, 2 := {1}];
    var g := AddEdge(g0, 1, 3);
    assert g[1] == {2, 3};
    assert Symmetric(g0) by {
      forall u, v | HasEdge(g0, u, v) ensures HasEdge(g0, v, u) {
        assert u == 1 || u == 2;
      }
    }
    NeighbourhoodInGraph(g, 1, 1);
    assert IsWalk(g, [1, 2]) && IsWalk(g, [1, 3]);
    NeighbourhoodWithinHops(g, 1, 1, 2);
    NeighbourhoodWithinHops(g, 1, 1, 3);
  }

  /** The script's window for the buyer holds the two amounts of 10, and 50
      lies above it by more than three sample deviations. */
  lemma DivergenceScriptWindow()
    ensures Analyze(Window([Purchase(2, 10.0), Purchase(2, 10.0)], {2, 3}, 100), Purchase(1, 50.0), Sample)
      == Some(Flag(1, 50.0, 10.0, 0.0))
  {
    DivergenceScriptAmounts();
    DivergencePairSum();
    var w := [10.0, 10.0];
    assert w[..1][..0] == [] && w[..1] == [10.0];
    assert SquaredDeviation(w, 10.0) == 0.0;
  }

  /** The deployed window for the buyer also holds the purchase of 1000 that
      the script dropped, so 50 lies below its mean. */
  lemma DivergenceDeployedWindow()
    ensures Analyze(Window([Purchase(2, 10.0), Purchase(2, 10.0), Purchase(3, 1000.0)], {2, 3}, 100), Purchase(1, 50.0), Population)
      == None
  {
    var ledger := [Purchase(2, 10.0), Purchase(2, 10.0), Purchase(3, 1000.0)];
    var nb: set<int> := {2, 3};
    assert Amounts(ledger, nb) == [10.0, 10.0, 1000.0] by {
      assert ledger[..2] == [Purchase(2, 10.0), Purchase(2, 10.0)];
      DivergenceScriptAmounts();
    }
    var w := Window(ledger, nb, 100);
    assert w == [10.0, 10.0, 1000.0];
    assert Sum(w) == 1020.0 by {
      assert w[..2] == [10.0, 10.0];
      DivergencePairSum();
    }
  }

  /** The neighbours' amounts in the ledger the script keeps. */
  lemma DivergenceScriptAmounts()
    ensures Amounts([Purchase(2, 10.0), Purchase(2, 10.0)], {2, 3}) == [10.0, 10.0]
  {
    var ledger := [Purchase(2, 10.0), Purchase(2, 10.0)];
    assert ledger[..1][..0] == [] && ledger[..1] == [Purchase(2, 10.0)];
    assert Amounts(ledger[..1], {2, 3}) == [10.0];
  }

  /** The sum of the script's window. */
  lemma DivergencePairSum()
    ensures Sum([10.0, 10.0]) == 20.0
  {
    var w := [10.0, 10.0];
    assert w[..1][..0] == [] && w[..1] == [10.0];
  }

  /** The detector's mutable state. */
  class Engine {
    var adj: Graph
    var ledger: seq<Purchase>
    const cfg: Config

    /** The graph is undirected: every friendship is stored in both
        directions, as in the graph library's undirected graph. Every method
        keeps it, and it is what `NeighbourhoodInGraph` needs to keep a
        buyer's neighbours among the graph's nodes. */
    ghost predicate Valid()
      reads this
    {
      Symmetric(adj)
    }

    function Snapshot(): State
      reads this
    {
      State(adj, ledger)
    }

    /** Seeding: the friendship rows are applied to an empty graph in order
        (an unfriend of a missing edge is ignored), then the purchase rows
        become the ledger. */
    constructor Seed(cfg: Config, rows: seq<Event>)
      ensures Valid() && this.cfg == cfg
      ensures Snapshot() == Seeded(rows)
    {
      this.cfg := cfg;
      adj := map[];
      ledger := [];
      new;
      var i := 0;
      while i < |rows|
        invariant 0 <= i <= |rows|
        invariant Valid() && adj == Befriendings(map[], rows[..i])
      {
        match rows[i] {
          case Befriend(a, b) =>
            AddFriend(a, b);
          case Unfriend(a, b) =>
            var _ := RemoveFriend(a, b);
          case Buy(_, _) =>
        }
        assert rows[..i + 1] == rows[..i] + [rows[i]];
        BefriendingsSnoc(map[], rows[..i], rows[i]);
        i := i + 1;
      }
      assert rows[..i] == rows;
      ledger := PurchasesOf(rows);
    }

    /** `befriend(a, b)`. */
    method AddFriend(a: int, b: int)
      requires Valid()
      modifies this
      ensures Valid()
      ensures adj == AddEdge(old(adj), a, b) && ledger == old(ledger)
    {
      adj := AddEdge(adj, a, b);
    }

    /** `unfriend(a, b)`: reports whether the friendship existed; a missing
        one leaves the graph as it was. */
    method RemoveFriend(a: int, b: int) returns (found: bool)
      requires Valid()
      modifies this
      ensures Valid() && ledger == old(ledger)
      ensures found == HasEdge(old(adj), a, b)
      ensures adj == if found then RemoveEdge(old(adj), a, b).value else old(adj)
    {
      var r := RemoveEdge(adj, a, b);
      found := r.Some?;
      if found {
        adj := r.value;
      }
    }

    /** A valid purchase in the deployed program: scored against the state
        before it (unless the buyer is absent or has no edge), then
        appended. */
    method HandlePurchase(id: int, amount: real) returns (flag: Option<Flag>)
      requires Valid()
      modifies this
      ensures Valid() && adj == old(adj)
      ensures ledger == old(ledger) + [Purchase(id, amount)]
      ensures flag == if id !in old(adj) || old(adj)[id] == {} then None
                      else Analyze(Window(old(ledger), Neighbourhood(old(adj), id, cfg.d), cfg.t), Purchase(id, amount), Population)
    {
      var p := Purchase(id, amount);
      if id !in adj || adj[id] == {} {
        ledger := ledger + [p];
        return None;
      }
      var network := Neighbourhood(adj, id, cfg.d);
      var window := Window(ledger, network, cfg.t);
      flag := Analyze(window, p, Population);
      ledger := ledger + [p];
    }

    /** A valid purchase in the script: dropped when the buyer is not in the
        graph; otherwise scored with the sample deviation against the state
        before it, then appended. */
    method HandleScriptPurchase(id: int, amount: real) returns (flag: Option<Flag>)
      requires Valid()
      modifies this
      ensures Valid() && adj == old(adj)
      ensures id !in old(adj) ==> ledger == old(ledger) && flag == None
      ensures id in old(adj) ==> ledger == old(ledger) + [Purchase(id, amount)]
      ensures id in old(adj) ==> flag == Analyze(Window(old(ledger), Neighbourhood(old(adj), id, cfg.d), cfg.t), Purchase(id, amount), Sample)
    {
      flag := None;
      if id in adj {
        var p := Purchase(id, amount);
        var network := Neighbourhood(adj, id, cfg.d);
        var window := Window(ledger, network, cfg.t);
        flag := Analyze(window, p, Sample);
        ledger := ledger + [p];
      }
    }

    /** One stream event: events with a missing required field, and events
        of an unknown type, are skipped. */
    method Ingest(e: RawEvent, v: Variant) returns (flag: Option<Flag>)
      requires Valid()
      modifies this
      ensures Valid()
      ensures (Snapshot(), flag) == Step(old(Snapshot()), cfg, v, e)
    {
      flag := None;
      if e.eventType == "befriend" {
        if e.id1.None? || e.id2.None? {
          return;
        }
        AddFriend(e.id1.value, e.id2.value);
      } else if e.eventType == "unfriend" {
        if e.id1.None? || e.id2.None? {
          return;
        }
        var _ := RemoveFriend(e.id1.value, e.id2.value);
      } else if e.eventType == "purchase" {
        if e.id.None? || e.amount.None? {
          return;
        }
        match v {
          case Deployed =>
            flag := HandlePurchase(e.id.value, e.amount.value);
          case Script =>
            flag := HandleScriptPurchase(e.id.value, e.amount.value);
        }
      }
    }

    /** The stream loop: the events in arrival order, collecting the flagged
        purchases. */
    method Run(events: seq<RawEvent>, v: Variant) returns (flags: seq<Flag>)
      requires Valid()
      modifies this
      ensures Valid()
      ensures (Snapshot(), flags) == Replay(old(Snapshot()), cfg, v, events)
    {
      ghost var start := Snapshot();
      flags := [];
      var i := 0;
      while i < |events|
        invariant 0 <= i <= |events|
        invariant Valid()
        invariant (Snapshot(), flags) == Replay(start, cfg, v, events[..i])
      {
        ghost var before := Snapshot();
        var flag := Ingest(events[i], v);
        assert Snapshot() == Step(before, cfg, v, events[i]).0 && flag == Step(before, cfg, v, events[i]).1;
        assert events[..i + 1][..i] == events[..i];
        assert Replay(start, cfg, v, events[..i + 1]) ==
          (Step(before, cfg, v, events[i]).0, Replay(start, cfg, v, events[..i]).1 + (if flag.Some? then [flag.value] else []));
        if flag.Some? {
          flags := flags + [flag.value];
        }
        assert Snapshot() == Replay(start, cfg, v, events[..i + 1]).0;
        assert flags == Replay(start, cfg, v, events[..i + 1]).1;
        i := i + 1;
      }
      assert events[..i] == events;
    }
  }

  /** A whole run: read the parameters, clean and seed the historical log,
      then process the stream. Missing parameters abort the run. */
  method Detect(hist: seq<RawEvent>, stream: seq<RawEvent>, v: Variant) returns (r: Result<seq<Flag>, ExecError>)
    ensures r.Failure? <==> |hist| == 0 || hist[0].t.None? || hist[0].d.None?
    ensures r.Success? ==>
              r.value == Replay(Seeded(Clean(hist)), Config(hist[0].t.value, hist[0].d.value), v, stream).1
  {
    var config := ReadConfig(hist);
    if config.Failure? {
      return Failure(config.error);
    }
    var engine := new Engine.Seed(config.value, Clean(hist));
    var flags := engine.Run(stream, v);
    r := Success(flags);
  }
}
