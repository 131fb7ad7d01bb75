/** The simulation driver of the recycling-hub model (recycling_hubs/model.py):
    the data collector's reporters, which sum one counter over the scheduled
    agents of one kind, and the tick counter that ends the run. */
module Model {
  import opened Agents

  /** The objects a list of scheduled agents refers to. */
  function Objects(agents: seq<Agent>): set<object>
  {
    set a | a in agents :: a.Ref()
  }

  /** The quantities the model reports, one per reporter function. */
  datatype Measure = RecycledDirect | RecycledViaHub | NotRecycled | RawMaterialConsumed | HubStock

  /** A reporter's isinstance filter: which kind of agent it sums over. */
  predicate Selects(m: Measure, a: Agent)
  {
    match m
    case RecycledDirect => a.ConstructionAgent?
    case RecycledViaHub => a.ConstructionAgent?
    case RawMaterialConsumed => a.ConstructionAgent?
    case NotRecycled => a.DemolitionAgent?
    case HubStock => a.HubAgent?
  }

  /** The field a reporter reads from an agent it selects. */
  function Reading(m: Measure, a: Agent): real
    requires Selects(m, a)
    reads a.Ref()
  {
    match m
    case RecycledDirect => a.construction.amountRecycled
    case RecycledViaHub => a.construction.amountHub
    case RawMaterialConsumed => a.construction.amountNonCircular
    case NotRecycled => a.demolition.amountNonCircular
    case HubStock => a.hub.stockLevel
  }

  /** A reporter's list comprehension: the readings of the agents it selects,
      in schedule order. */
  function Readings(agents: seq<Agent>, m: Measure): (r: seq<real>)
    reads Objects(agents)
    ensures |r| <= |agents|
  {
    if agents == [] then []
    else
      var last := agents[|agents| - 1];
      Readings(agents[..|agents| - 1], m) + (if Selects(m, last) then [Reading(m, last)] else [])
  }

  /** np.sum of a list of amounts; the empty sum is 0. */
  function Sum(xs: seq<real>): real
  {
    if xs == [] then 0.0 else Sum(xs[..|xs| - 1]) + xs[|xs| - 1]
  }

  /** What a reporter returns: the sum of its comprehension. */
  function Report(agents: seq<Agent>, m: Measure): real
    reads Objects(agents)
  {
    Sum(Readings(agents, m))
  }

  /** calculate_recycled: direct recycling, counted on the construction side only. */
  function CalculateRecycled(agents: seq<Agent>): real
    reads Objects(agents)
  {
    Report(agents, RecycledDirect)
  }

  /** calculate_recycled_hub: recycling via hubs, counted on the construction side only. */
  function CalculateRecycledHub(agents: seq<Agent>): real
    reads Objects(agents)
  {
    Report(agents, RecycledViaHub)
  }

  /** calculate_not_recycled: what demolition agents dumped. */
  function CalculateNotRecycled(agents: seq<Agent>): real
    reads Objects(agents)
  {
    Report(agents, NotRecycled)
  }

  /** calculate_raw_material_consumed: what construction agents bought. */
  function CalculateRawMaterialConsumed(agents: seq<Agent>): real
    reads Objects(agents)
  {
    Report(agents, RawMaterialConsumed)
  }

  /** get_stock_level_hubs: the material stored in all hubs together. */
  function GetStockLevelHubs(agents: seq<Agent>): real
    reads Objects(agents)
  {
    Report(agents, HubStock)
  }

  /** The capacity of all scheduled hubs together (a reference quantity for
      the stock reporter; the source has no such reporter). */
  function TotalCapacity(agents: seq<Agent>): real
  {
    if agents == [] then 0.0
    else
      var last := agents[|agents| - 1];
      TotalCapacity(agents[..|agents| - 1]) + (if last.HubAgent? then last.hub.maxCapacity else 0.0)
  }

  lemma {:induction false} SumAppend(xs: seq<real>, ys: seq<real>)
    ensures Sum(xs + ys) == Sum(xs) + Sum(ys)
    decreases |ys|
  {
    if ys == [] {
      assert xs + ys == xs;
    } else {
      assert (xs + ys)[..|xs + ys| - 1] == xs + ys[..|ys| - 1];
      SumAppend(xs, ys[..|ys| - 1]);
    }
  }

  lemma {:induction false} ReadingsAppend(front: seq<Agent>, back: seq<Agent>, m: Measure)
    ensures Readings(front + back, m) == Readings(front, m) + Readings(back, m)
    decreases |back|
  {
    if back == [] {
      assert front + back == front;
    } else {
      assert (front + back)[..|front + back| - 1] == front + back[..|back| - 1];
      ReadingsAppend(front, back[..|back| - 1], m);
    }
  }

  /** A reporter is additive over the schedule: splitting the agent list
      splits the sum. */
  lemma ReportAppend(front: seq<Agent>, back: seq<Agent>, m: Measure)
    ensures Report(front + back, m) == Report(front, m) + Report(back, m)
  {
    ReadingsAppend(front, back, m);
    SumAppend(Readings(front, m), Readings(back, m));
  }

  /** A single agent contributes its reading if the reporter selects its kind,
      and nothing otherwise. */
  lemma ReportOfOne(a: Agent, m: Measure)
    ensures Report([a], m) == if Selects(m, a) then Reading(m, a) else 0.0
  {
    assert [a][..0] == [];
    if Selects(m, a) {
      assert Readings([a], m) == [Reading(m, a)];
      SumSingleton(Reading(m, a));
    } else {
      assert Readings([a], m) == [];
    }
  }

  /** Adding an agent the reporter does not select leaves the report unchanged:
      the direct-recycling and hub reporters ignore demolition agents, so a
      transfer booked on both sides is counted once. */
  lemma ReportIgnoresUnselected(agents: seq<Agent>, a: Agent, m: Measure)
    requires !Selects(m, a)
    ensures Report(agents + [a], m) == Report(agents, m)
  {
    ReportAppend(agents, [a], m);
    ReportOfOne(a, m);
  }

  lemma {:induction false} ReportNonNegative(agents: seq<Agent>, m: Measure)
    requires forall a :: a in agents && Selects(m, a) ==> 0.0 <= Reading(m, a)
    ensures 0.0 <= Report(agents, m)
  {
    if agents != [] {
      var front := agents[..|agents| - 1];
      assert forall a :: a in front ==> a in agents;
      ReportNonNegative(front, m);
      assert agents == front + [agents[|agents| - 1]];
      ReportAppend(front, [agents[|agents| - 1]], m);
      ReportOfOne(agents[|agents| - 1], m);
    }
  }

  /** If every construction and demolition agent keeps its accounting
      invariant, the four accounting reporters are non-negative. */
  lemma ReportersNonNegative(agents: seq<Agent>)
    requires forall a :: a in agents && a.ConstructionAgent? ==> a.construction.Valid()
    requires forall a :: a in agents && a.DemolitionAgent? ==> a.demolition.Valid()
    ensures 0.0 <= CalculateRecycled(agents) && 0.0 <= CalculateRecycledHub(agents)
    ensures 0.0 <= CalculateNotRecycled(agents) && 0.0 <= CalculateRawMaterialConsumed(agents)
  {
    ReportNonNegative(agents, RecycledDirect);
    ReportNonNegative(agents, RecycledViaHub);
    ReportNonNegative(agents, NotRecycled);
    ReportNonNegative(agents, RawMaterialConsumed);
  }

  /** If every hub keeps its invariant, the total stock is between 0 and the
      total capacity of the hubs. */
  lemma {:induction false} StockLevelBounds(agents: seq<Agent>)
    requires forall a :: a in agents && a.HubAgent? ==> a.hub.Valid()
    ensures 0.0 <= GetStockLevelHubs(agents) <= TotalCapacity(agents)
  {
    if agents != [] {
      var front := agents[..|agents| - 1];
      var last := agents[|agents| - 1];
      assert forall a :: a in front ==> a in agents;
      StockLevelBounds(front);
      assert agents == front + [last];
      ReportAppend(front, [last], HubStock);
      ReportOfOne(last, HubStock);
    }
  }

  /** How many of the agents a reporter selects refer to the object x. */
  function Occurrences(agents: seq<Agent>, m: Measure, x: object?): (n: nat)
    ensures n <= |agents|
  {
    if agents == [] then 0
    else
      var last := agents[|agents| - 1];
      Occurrences(agents[..|agents| - 1], m, x) + (if Selects(m, last) && last.Ref() == x then 1 else 0)
  }

  lemma SumSingleton(v: real)
    ensures Sum([v]) == v
  {
  }

  /** What one agent adds to the shift of a report. */
  function Shift(a: Agent, m: Measure, x: object?, delta: real): real
  {
    if Selects(m, a) && a.Ref() == x then delta else 0.0
  }

  /** The shifts of all agents of a schedule together. */
  function ShiftTotal(agents: seq<Agent>, m: Measure, x: object?, delta: real): real
  {
    if agents == [] then 0.0
    else ShiftTotal(agents[..|agents| - 1], m, x, delta) + Shift(agents[|agents| - 1], m, x, delta)
  }

  /** delta added n times. */
  function Times(n: nat, delta: real): real
  {
    if n == 0 then 0.0 else Times(n - 1, delta) + delta
  }

  lemma {:induction false} ShiftTotalTimes(agents: seq<Agent>, m: Measure, x: object?, delta: real)
    ensures ShiftTotal(agents, m, x, delta) == Times(Occurrences(agents, m, x), delta)
  {
    if agents != [] {
      ShiftTotalTimes(agents[..|agents| - 1], m, x, delta);
    }
  }

  /** A change to one reporter's reading of one object: it rose by amount. */
  datatype Credit = Credit(measure: Measure, amount: real)

  /** One more scheduled agent adds its own shift to the change of a report. */
  twostate lemma ReportShiftedStep(new front: seq<Agent>, new last: Agent, new x: object?, credit: Credit)
    requires old(allocated(front)) && old(allocated(last))
    requires Selects(credit.measure, last) ==>
      Reading(credit.measure, last) == old(Reading(credit.measure, last)) + Shift(last, credit.measure, x, credit.amount)
    ensures Report(front + [last], credit.measure) - old(Report(front + [last], credit.measure)) ==
      Report(front, credit.measure) - old(Report(front, credit.measure)) + Shift(last, credit.measure, x, credit.amount)
  {
    var m, s := credit.measure, front + [last];
    assert s[..|s| - 1] == front && s[|s| - 1] == last;
    var now, before := Readings(front, m), old(Readings(front, m));
    if Selects(m, last) {
      var v, w := Reading(m, last), old(Reading(m, last));
      assert Readings(s, m) == now + [v];
      assert old(Readings(s, m)) == before + [w];
      SumAppend(now, [v]);
      SumAppend(before, [w]);
      SumSingleton(v);
      SumSingleton(w);
    } else {
      assert Readings(s, m) == now;
      assert old(Readings(s, m)) == before;
    }
  }

  /** Across a change of state in which the reading of object x rose by the
      credited amount and no other selected reading changed, the report rose
      by that amount for every occurrence of x in the schedule. */
  twostate lemma ReportShifted(new agents: seq<Agent>, new x: object?, credit: Credit)
    requires old(allocated(agents))
    requires forall a :: a in agents && Selects(credit.measure, a) ==>
      Reading(credit.measure, a) == old(Reading(credit.measure, a)) + (if a.Ref() == x then credit.amount else 0.0)
    ensures Report(agents, credit.measure) ==
      old(Report(agents, credit.measure)) + Times(Occurrences(agents, credit.measure, x), credit.amount)
  {
    var m, delta := credit.measure, credit.amount;
    var i := 0;
    while i < |agents|
      invariant i <= |agents|
      invariant Report(agents[..i], m) - old(Report(agents[..i], m)) == ShiftTotal(agents[..i], m, x, delta)
    {
      assert agents[..i + 1] == agents[..i] + [agents[i]] && agents[i] in agents;
      ReportShiftedStep(agents[..i], agents[i], x, credit);
      i := i + 1;
    }
    assert agents[..i] == agents;
    ShiftTotalTimes(agents, m, x, delta);
  }

  /** A direct transfer is counted once: when a demolition step credited
      moved to its partner among the cellmates (and no other construction
      agent of the schedule changed), the direct-recycling report rises by
      exactly moved if the partner is scheduled once. */
  twostate lemma DirectTransferCountedOnce(new agents: seq<Agent>, new cellmates: seq<Agent>,
                                           new partner: ConstructionProjectAgent, moved: real)
    requires old(allocated(agents)) && old(allocated(cellmates)) && old(allocated(partner))
    requires CellmatesCredited(cellmates, partner, moved)
    requires partner in ConstructionsIn(cellmates)
    requires forall a :: a in agents && a.ConstructionAgent? && a.construction !in ConstructionsIn(cellmates) ==>
      a.construction.amountRecycled == old(a.construction.amountRecycled)
    requires Occurrences(agents, RecycledDirect, partner) == 1
    ensures CalculateRecycled(agents) == old(CalculateRecycled(agents)) + moved
  {
    ReportShifted(agents, partner, Credit(RecycledDirect, moved));
  }

  /** Material taken from a hub is not lost: when a construction agent's
      amountHub rose by what its hub's stock fell (and no other construction
      agent's amountHub and no other hub's stock changed), the hub reporter
      plus the stock reporter is unchanged, if the agent and its hub are each
      scheduled once. */
  twostate lemma HubTransferConserved(new agents: seq<Agent>, new c: ConstructionProjectAgent)
    requires old(allocated(agents)) && old(allocated(c))
    requires c.hub != null
    requires c.amountHub - old(c.amountHub) == old(c.hub.stockLevel) - c.hub.stockLevel
    requires forall a :: a in agents && a.ConstructionAgent? && a.construction != c ==>
      a.construction.amountHub == old(a.construction.amountHub)
    requires forall a :: a in agents && a.HubAgent? && a.hub != c.hub ==>
      a.hub.stockLevel == old(a.hub.stockLevel)
    requires Occurrences(agents, RecycledViaHub, c) == 1 && Occurrences(agents, HubStock, c.hub) == 1
    ensures CalculateRecycledHub(agents) + GetStockLevelHubs(agents) ==
      old(CalculateRecycledHub(agents) + GetStockLevelHubs(agents))
  {
    var delta := c.amountHub - old(c.amountHub);
    forall a | a in agents && Selects(RecycledViaHub, a)
      ensures Reading(RecycledViaHub, a) == old(Reading(RecycledViaHub, a)) + (if a.Ref() == c then delta else 0.0)
    {
      assert a.Ref() == a.construction;
    }
    ReportShifted(agents, c, Credit(RecycledViaHub, delta));
    assert Times(1, delta) == delta && Times(1, -delta) == -delta;
    assert CalculateRecycledHub(agents) == old(CalculateRecycledHub(agents)) + delta;
    forall a | a in agents && Selects(HubStock, a)
      ensures Reading(HubStock, a) == old(Reading(HubStock, a)) + (if a.Ref() == c.hub then -delta else 0.0)
    {
      assert a.Ref() == a.hub;
    }
    ReportShifted(agents, c.hub, Credit(HubStock, -delta));
    assert GetStockLevelHubs(agents) == old(GetStockLevelHubs(agents)) - delta;
  }

  /** The model's clock: the tick counter and the flag that keeps the run
      going. The scheduled agents are the list the reporters are applied to. */
  class ConcreteRecyclingModel {
    const duration: int
    var tickCounter: int
    var running: bool

    /** The part of __init__ that sets up the run's clock. */
    constructor ()
      ensures duration == 37 && tickCounter == 0 && running
      ensures Valid()
    {
      duration := 37;
      tickCounter := 0;
      running := true;
    }

    /** The run goes on exactly while fewer than duration ticks have passed. */
    ghost predicate Valid()
      reads this
    {
      0 <= tickCounter && (running <==> tickCounter < duration)
    }

    /** step: one more tick; the run stops once duration ticks have passed. */
    method Step()
      modifies this`tickCounter, this`running
      ensures tickCounter == old(tickCounter) + 1
      ensures running == (old(running) && tickCounter < duration)
      ensures old(Valid()) ==> Valid()
    {
      tickCounter := tickCounter + 1;
      if tickCounter >= duration {
        running := false;
      }
    }
  }
}
