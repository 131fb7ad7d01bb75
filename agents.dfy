/** The agents of the recycling-hub simulation (recycling_hubs/agents.py): a
    capacity-bounded hub, the two non-circular sinks, the demolition and
    construction project agents with their per-tick step, and a demolition
    site. Material amounts are modelled as exact reals. */
module Agents {
  import opened Utils

  /** Why a hub refuses an operation; the source raises ValueError for both. */
  datatype HubError = CapacityExceeded | InsufficientStock

  /** What a hub operation returns instead of raising. */
  datatype Outcome = Pass | Fail(error: HubError)

  /** A grid cell. The grid itself is not modelled: where an agent moves to and
      who else is in that cell are inputs of the step. */
  datatype Cell = Cell(x: int, y: int)

  /** The objects the simulation schedules and places on cells. The source
      tells them apart with isinstance; here each kind is a variant. */
  datatype Agent =
    | HubAgent(hub: RecyclingHub)
    | DemolitionAgent(demolition: DemolitionProjectAgent)
    | ConstructionAgent(construction: ConstructionProjectAgent)
  {
    /** The object this entry refers to. */
    function Ref(): object
    {
      match this
      case HubAgent(h) => h
      case DemolitionAgent(d) => d
      case ConstructionAgent(c) => c
    }
  }

  /** Python's built-in min on two amounts. */
  function Min(a: real, b: real): (r: real)
    ensures r <= a && r <= b
    ensures r == a || r == b
  {
    if b < a then b else a
  }

  /** ProjectAgent.account_material_balance, shared by both kinds of project
      agent: the part of the target amount not yet accounted for by any of
      the three routes. */
  function MaterialBalance(materialAmount: real, recycled: real, viaHub: real, nonCircular: real): (r: real)
    ensures r + recycled + viaHub + nonCircular == materialAmount
    ensures r == 0.0 <==> recycled + viaHub + nonCircular == materialAmount
    ensures r > 0.0 <==> recycled + viaHub + nonCircular < materialAmount
  {
    materialAmount - (recycled + viaHub + nonCircular)
  }

  /** The construction agents among the contents of a cell. */
  function ConstructionsIn(cellmates: seq<Agent>): set<ConstructionProjectAgent>
  {
    set a | a in cellmates && a.ConstructionAgent? :: a.construction
  }

  /** The candidate partners recycle collects: the construction agents in the
      cell whose status is active, in the cell's order. */
  function ActiveConstructionAgents(cellmates: seq<Agent>): (r: seq<ConstructionProjectAgent>)
    reads ConstructionsIn(cellmates)`status
    ensures forall c :: c in r ==> ConstructionAgent(c) in cellmates && c.status == Active
    ensures forall a :: a in cellmates && a.ConstructionAgent? && a.construction.status == Active ==>
      a.construction in r
    ensures |r| <= |cellmates|
  {
    if cellmates == [] then []
    else
      var rest := ActiveConstructionAgents(cellmates[..|cellmates| - 1]);
      var last := cellmates[|cellmates| - 1];
      if last.ConstructionAgent? && last.construction.status == Active then rest + [last.construction]
      else rest
  }

  /** Every construction agent of the set keeps its accounting invariant. */
  ghost predicate AllValid(cs: set<ConstructionProjectAgent>)
    reads cs
  {
    forall c :: c in cs ==> c.Valid()
  }

  /** Across one call: the construction agents of the cell kept their
      amount_recycled, except that partner (if not null) gained moved. */
  twostate predicate CellmatesCredited(cellmates: seq<Agent>, new partner: ConstructionProjectAgent?, moved: real)
    reads ConstructionsIn(cellmates)
  {
    forall c :: c in ConstructionsIn(cellmates) ==>
      c.amountRecycled == old(c.amountRecycled) + (if c == partner then moved else 0.0)
  }

  /** A hub: a store of recycled material with a fixed maximum capacity. */
  class RecyclingHub {
    var stockLevel: real
    const maxCapacity: real

    constructor (maxCapacity: real := 1000.0)
      ensures this.maxCapacity == maxCapacity && stockLevel == 0.0
      ensures 0.0 <= maxCapacity ==> Valid()
    {
      stockLevel := 0.0;
      this.maxCapacity := maxCapacity;
    }

    /** The hub's invariant: the stock is never negative and never above capacity. */
    ghost predicate Valid()
      reads this
    {
      0.0 <= stockLevel <= maxCapacity
    }

    /** get_available_capacity: what can still be loaded before the hub is full. */
    function AvailableCapacity(): (r: real)
      reads this
      ensures stockLevel + r == maxCapacity
      ensures Valid() ==> 0.0 <= r <= maxCapacity
    {
      maxCapacity - stockLevel
    }

    /** has_capacity: the hub is not yet full. */
    predicate HasCapacity()
      reads this
      ensures HasCapacity() <==> stockLevel < maxCapacity
    {
      AvailableCapacity() > 0.0
    }

    /** load: refused, leaving the stock as it was, when the new stock would
        exceed the capacity; otherwise the stock grows by exactly amount. */
    method Load(amount: real) returns (outcome: Outcome)
      modifies this`stockLevel
      ensures outcome == if old(stockLevel) + amount > maxCapacity then Fail(CapacityExceeded) else Pass
      ensures stockLevel == if outcome.Pass? then old(stockLevel) + amount else old(stockLevel)
      ensures old(Valid()) && 0.0 <= amount ==> Valid()
    {
      if stockLevel + amount > maxCapacity {
        outcome := Fail(CapacityExceeded);
      } else {
        stockLevel := stockLevel + amount;
        outcome := Pass;
      }
    }

    /** remove: refused, leaving the stock as it was, when more is asked for
        than is in stock; otherwise the stock shrinks by exactly amount. */
    method Remove(amount: real) returns (outcome: Outcome)
      modifies this`stockLevel
      ensures outcome == if amount > old(stockLevel) then Fail(InsufficientStock) else Pass
      ensures stockLevel == if outcome.Pass? then old(stockLevel) - amount else old(stockLevel)
      ensures old(Valid()) && 0.0 <= amount ==> Valid()
    {
      if amount > stockLevel {
        outcome := Fail(InsufficientStock);
      } else {
        stockLevel := stockLevel - amount;
        outcome := Pass;
      }
    }
  }

  /** Conventional waste disposal: an unbounded, append-only accumulator. */
  class ConventionalWasteRecycling {
    var amountTransferred: real

    constructor ()
      ensures amountTransferred == 0.0
    {
      amountTransferred := 0.0;
    }

    /** dump: the accumulated amount grows by exactly amount. */
    method Dump(amount: real)
      modifies this
      ensures amountTransferred == old(amountTransferred) + amount
    {
      amountTransferred := amountTransferred + amount;
    }
  }

  /** Raw-material supply: an unbounded, append-only accumulator. */
  class RawMaterialSupply {
    var amountTransferred: real

    constructor ()
      ensures amountTransferred == 0.0
    {
      amountTransferred := 0.0;
    }

    /** buy: the accumulated amount grows by exactly amount. */
    method Buy(amount: real)
      modifies this
      ensures amountTransferred == old(amountTransferred) + amount
    {
      amountTransferred := amountTransferred + amount;
    }
  }

  /** A demolition project: it has materialAmount of material to get rid of,
      by loading it into its hub, by handing it to a construction project in
      the same cell, or, on the last tick of its lifespan, by dumping it. */
  class DemolitionProjectAgent {
    var pos: Cell
    var lifespan: int
    var status: Status
    const materialAmount: real
    var amountRecycled: real
    var amountHub: real
    var amountNonCircular: real
    const hub: RecyclingHub?
    const convRecycling: ConventionalWasteRecycling

    constructor (pos: Cell, hub: RecyclingHub? := null, lifespan: int := 20,
                 status: Status := Passive, materialAmount: real := 0.0)
      ensures this.pos == pos && this.hub == hub && this.lifespan == lifespan
      ensures this.status == status && this.materialAmount == materialAmount
      ensures amountRecycled == 0.0 && amountHub == 0.0 && amountNonCircular == 0.0
      ensures fresh(convRecycling) && convRecycling.amountTransferred == 0.0
      ensures Valid() <==> 0.0 <= materialAmount && (status == Finished ==> materialAmount == 0.0)
    {
      this.pos := pos;
      this.lifespan := lifespan;
      this.status := status;
      this.materialAmount := materialAmount;
      amountRecycled, amountHub, amountNonCircular := 0.0, 0.0, 0.0;
      this.hub := hub;
      convRecycling := new ConventionalWasteRecycling();
    }

    /** account_material_balance for this agent. */
    function AccountMaterialBalance(): real
      reads this`amountRecycled, this`amountHub, this`amountNonCircular
    {
      MaterialBalance(materialAmount, amountRecycled, amountHub, amountNonCircular)
    }

    /** The accounting invariant: no counter is negative, nothing is
        over-accounted, and a finished agent has nothing outstanding. */
    ghost predicate Valid()
      reads this
    {
      0.0 <= amountRecycled && 0.0 <= amountHub && 0.0 <= amountNonCircular &&
      0.0 <= AccountMaterialBalance() &&
      (status == Finished ==> AccountMaterialBalance() == 0.0)
    }

    /** Across one call: none of the three counters went down. */
    twostate predicate Monotone()
      reads this
    {
      old(amountRecycled) <= amountRecycled && old(amountHub) <= amountHub &&
      old(amountNonCircular) <= amountNonCircular
    }

    /** Across one call: nothing the step may change has changed, except the status. */
    twostate predicate Idle()
      reads this, hub, convRecycling
    {
      pos == old(pos) && lifespan == old(lifespan) &&
      amountRecycled == old(amountRecycled) && amountHub == old(amountHub) &&
      amountNonCircular == old(amountNonCircular) &&
      (hub != null ==> hub.stockLevel == old(hub.stockLevel)) &&
      convRecycling.amountTransferred == old(convRecycling.amountTransferred)
    }

    /** move: the agent goes to a cell chosen by the grid. */
    method Move(target: Cell)
      modifies this`pos
      ensures pos == target
    {
      pos := target;
    }

    /** transfer_to_hub: loads as much of amount as the hub can still hold
        (so the load is never refused) and books it as amount_recycled. */
    method TransferToHub(amount: real) returns (balance: real)
      requires hub != null
      modifies this`amountRecycled, hub`stockLevel
      ensures var moved := Min(amount, old(hub.AvailableCapacity()));
        amountRecycled == old(amountRecycled) + moved &&
        hub.stockLevel == old(hub.stockLevel) + moved
      ensures balance == AccountMaterialBalance()
      ensures amount == old(AccountMaterialBalance()) ==> 0.0 <= balance
      ensures old(hub.Valid()) && 0.0 <= amount ==> hub.Valid()
    {
      var amountTransferred := Min(amount, hub.AvailableCapacity());
      amountRecycled := amountRecycled + amountTransferred;
      var outcome := hub.Load(amountTransferred);
      assert outcome == Pass;
      balance := AccountMaterialBalance();
    }

    /** The candidate loop of recycle (agents.py lines 139-142): walks the
        cell's contents and keeps the active construction agents. */
    method CollectActiveConstructionAgents(cellmates: seq<Agent>)
      returns (constructionAgents: seq<ConstructionProjectAgent>)
      ensures constructionAgents == ActiveConstructionAgents(cellmates)
    {
      constructionAgents := [];
      for i := 0 to |cellmates|
        invariant constructionAgents == ActiveConstructionAgents(cellmates[..i])
      {
        var c := cellmates[i];
        assert cellmates[..i + 1][..i] == cellmates[..i];
        if c.ConstructionAgent? && c.construction.status == Active {
          constructionAgents := constructionAgents + [c.construction];
        }
      }
      assert cellmates[..|cellmates|] == cellmates;
    }

    /** recycle: among the active construction agents in the cell, one is
        picked (at random when there are several); both sides book
        min(amount, partner's balance) as amount_recycled. With no candidate
        nothing changes. The ghost results name the partner and the amount. */
    method Recycle(amount: real, cellmates: seq<Agent>)
      returns (ghost partner: ConstructionProjectAgent?, ghost moved: real)
      modifies this`amountRecycled, ConstructionsIn(cellmates)`amountRecycled
      ensures partner == null <==> ActiveConstructionAgents(cellmates) == []
      ensures partner != null ==>
        partner in ActiveConstructionAgents(cellmates) &&
        moved == Min(amount, old(partner.AccountMaterialBalance()))
      ensures partner == null ==> moved == 0.0
      ensures amountRecycled == old(amountRecycled) + moved
      ensures CellmatesCredited(cellmates, partner, moved)
      // neither side ends up over-accounted
      ensures 0.0 <= amount == old(AccountMaterialBalance()) ==> 0.0 <= AccountMaterialBalance()
      ensures partner != null ==> 0.0 <= partner.AccountMaterialBalance()
    {
      var constructionAgents := CollectActiveConstructionAgents(cellmates);
      partner, moved := null, 0.0;
      if |constructionAgents| > 0 {
        var other: ConstructionProjectAgent;
        if |constructionAgents| > 1 {
          assert constructionAgents[0] in constructionAgents;
          other :| other in constructionAgents;
        } else {
          other := constructionAgents[0];
        }
        assert ConstructionAgent(other) in cellmates;
        assert other in ConstructionsIn(cellmates);
        var amountTransferred := Min(amount, other.AccountMaterialBalance());
        amountRecycled := amountRecycled + amountTransferred;
        other.amountRecycled := other.amountRecycled + amountTransferred;
        partner, moved := other, amountTransferred;
      }
    }

    /** transfer_to_construction: recycles directly when amount is positive. */
    method TransferToConstruction(amount: real, cellmates: seq<Agent>)
      returns (balance: real, ghost partner: ConstructionProjectAgent?, ghost moved: real)
      modifies this`amountRecycled, ConstructionsIn(cellmates)`amountRecycled
      ensures partner == null <==> amount <= 0.0 || ActiveConstructionAgents(cellmates) == []
      ensures partner != null ==>
        partner in ActiveConstructionAgents(cellmates) &&
        moved == Min(amount, old(partner.AccountMaterialBalance()))
      ensures partner == null ==> moved == 0.0
      ensures amountRecycled == old(amountRecycled) + moved
      ensures CellmatesCredited(cellmates, partner, moved)
      ensures balance == AccountMaterialBalance()
    {
      partner, moved := null, 0.0;
      if amount > 0.0 {
        partner, moved := Recycle(amount, cellmates);
      }
      balance := AccountMaterialBalance();
    }

    /** The moving and transfer part of an active step (agents.py lines
        89-102): the agent moves to target; then a positive balance goes to
        the hub while it has capacity, or, when the agent has no hub,
        directly to a construction agent of the cell. */
    method MoveAndTransfer(balance: real, target: Cell, cellmates: seq<Agent>)
      returns (newBalance: real, ghost partner: ConstructionProjectAgent?, ghost moved: real)
      requires balance == AccountMaterialBalance()
      modifies this`pos, this`amountRecycled, hub, ConstructionsIn(cellmates)`amountRecycled
      ensures pos == target
      ensures hub != null ==>
        partner == null &&
        moved == (if balance > 0.0 && old(hub.HasCapacity()) then Min(balance, old(hub.AvailableCapacity())) else 0.0) &&
        hub.stockLevel == old(hub.stockLevel) + moved
      ensures hub == null ==>
        (partner == null <==> balance <= 0.0 || ActiveConstructionAgents(cellmates) == []) &&
        (partner != null ==>
          partner in ActiveConstructionAgents(cellmates) &&
          moved == Min(balance, old(partner.AccountMaterialBalance()))) &&
        (partner == null ==> moved == 0.0)
      ensures amountRecycled == old(amountRecycled) + moved
      ensures CellmatesCredited(cellmates, partner, moved)
      ensures newBalance == AccountMaterialBalance() == balance - moved
      ensures 0.0 <= balance ==> 0.0 <= newBalance
      ensures hub != null && old(hub.Valid()) ==> hub.Valid()
      ensures old(AllValid(ConstructionsIn(cellmates))) ==>
        0.0 <= moved && AllValid(ConstructionsIn(cellmates))
    {
      Move(target);
      newBalance, partner, moved := balance, null, 0.0;
      if balance > 0.0 {
        if hub != null {
          if hub.HasCapacity() {
            moved := Min(balance, hub.AvailableCapacity());
            newBalance := TransferToHub(balance);
          }
        } else {
          newBalance, partner, moved := TransferToConstruction(balance, cellmates);
        }
      }
    }

    /** The settling part of an active step (agents.py lines 104-113): a zero
        balance finishes the agent; on the last tick a positive balance is
        dumped and the agent finishes; one tick of lifespan is spent. */
    method Settle(balance: real)
      requires balance == AccountMaterialBalance()
      modifies this`status, this`amountNonCircular, this`lifespan, convRecycling
      ensures lifespan == old(lifespan) - 1
      ensures if old(lifespan) == 1 && balance > 0.0 then
          amountNonCircular == old(amountNonCircular) + balance &&
          convRecycling.amountTransferred == old(convRecycling.amountTransferred) + balance &&
          AccountMaterialBalance() == 0.0 && status == Finished
        else
          amountNonCircular == old(amountNonCircular) &&
          convRecycling.amountTransferred == old(convRecycling.amountTransferred) &&
          status == (if balance == 0.0 then Finished else old(status))
    {
      if balance == 0.0 {
        status := Finished;
      }
      // last step with material left
      if lifespan == 1 && balance > 0.0 {
        convRecycling.Dump(balance);
        amountNonCircular := amountNonCircular + balance;
        status := Finished;
      }
      lifespan := lifespan - 1;
    }

    /** The active part of a step (agents.py lines 89-113): move, transfer, settle. */
    method ActiveStep(balance: real, target: Cell, cellmates: seq<Agent>)
      returns (ghost partner: ConstructionProjectAgent?, ghost moved: real)
      requires status == Active && balance == AccountMaterialBalance() && balance != 0.0
      modifies this, hub, convRecycling, ConstructionsIn(cellmates)`amountRecycled
      ensures amountRecycled == old(amountRecycled) + moved
      ensures CellmatesCredited(cellmates, partner, moved)
      ensures pos == target && lifespan == old(lifespan) - 1 && amountHub == old(amountHub)
      ensures hub != null ==>
        partner == null && hub.stockLevel == old(hub.stockLevel) + moved &&
        moved == (if balance > 0.0 && old(hub.HasCapacity()) then Min(balance, old(hub.AvailableCapacity())) else 0.0)
      ensures hub == null ==>
        (partner == null <==> balance < 0.0 || old(ActiveConstructionAgents(cellmates)) == []) &&
        (partner != null ==>
          partner in old(ActiveConstructionAgents(cellmates)) &&
          moved == Min(balance, old(partner.AccountMaterialBalance()))) &&
        (partner == null ==> moved == 0.0)
      ensures var remaining := balance - moved;
        if old(lifespan) == 1 && remaining > 0.0 then
          amountNonCircular == old(amountNonCircular) + remaining &&
          convRecycling.amountTransferred == old(convRecycling.amountTransferred) + remaining &&
          AccountMaterialBalance() == 0.0 && status == Finished
        else
          amountNonCircular == old(amountNonCircular) &&
          convRecycling.amountTransferred == old(convRecycling.amountTransferred) &&
          status == (if remaining == 0.0 then Finished else Active)
      ensures hub != null && old(hub.Valid()) ==> hub.Valid()
      ensures old(AllValid(ConstructionsIn(cellmates))) ==>
        0.0 <= moved && AllValid(ConstructionsIn(cellmates))
      ensures 0.0 <= balance ==> 0.0 <= AccountMaterialBalance()
    {
      var currentBalance;
      currentBalance, partner, moved := MoveAndTransfer(balance, target, cellmates);
      Settle(currentBalance);
    }

    /** step: one tick of the demolition project. target is the cell the
        grid moves the agent to and cellmates are that cell's contents. The
        ghost results name the construction agent that received material
        directly (null if none) and the amount booked as amount_recycled. */
    method Step(target: Cell, cellmates: seq<Agent>)
      returns (ghost partner: ConstructionProjectAgent?, ghost moved: real)
      modifies this, hub, convRecycling, ConstructionsIn(cellmates)`amountRecycled
      // a zero balance finishes the agent and nothing else happens
      ensures old(AccountMaterialBalance()) == 0.0 ==> status == Finished && Idle() && partner == null
      // an agent that is not active does nothing
      ensures old(AccountMaterialBalance()) != 0.0 && old(status) != Active ==>
        status == old(status) && Idle() && partner == null
      // in particular a finished agent stays finished and unchanged
      ensures old(status) == Finished ==> status == Finished && Idle() && partner == null
      // what is booked as recycled, and which construction agent of the cell gets the same
      ensures amountRecycled == old(amountRecycled) + moved
      ensures CellmatesCredited(cellmates, partner, moved)
      // an active agent moves and spends one tick of its lifespan; amount_hub is never used
      ensures old(AccountMaterialBalance()) != 0.0 && old(status) == Active ==>
        pos == target && lifespan == old(lifespan) - 1 && amountHub == old(amountHub)
      // with a hub: only the hub is used, and only while it has capacity
      ensures old(AccountMaterialBalance()) != 0.0 && old(status) == Active && hub != null ==>
        partner == null && hub.stockLevel == old(hub.stockLevel) + moved &&
        moved == (if old(AccountMaterialBalance()) > 0.0 && old(hub.HasCapacity())
                  then Min(old(AccountMaterialBalance()), old(hub.AvailableCapacity())) else 0.0)
      // without a hub: directly to one active construction agent of the cell, if any
      ensures old(AccountMaterialBalance()) != 0.0 && old(status) == Active && hub == null ==>
        (partner == null <==> old(AccountMaterialBalance()) < 0.0 || old(ActiveConstructionAgents(cellmates)) == []) &&
        (partner != null ==>
          partner in old(ActiveConstructionAgents(cellmates)) &&
          moved == Min(old(AccountMaterialBalance()), old(partner.AccountMaterialBalance()))) &&
        (partner == null ==> moved == 0.0)
      // settling: finished at zero balance; on the last tick the remainder is dumped
      ensures old(AccountMaterialBalance()) != 0.0 && old(status) == Active ==>
        var remaining := old(AccountMaterialBalance()) - moved;
        if old(lifespan) == 1 && remaining > 0.0 then
          amountNonCircular == old(amountNonCircular) + remaining &&
          convRecycling.amountTransferred == old(convRecycling.amountTransferred) + remaining &&
          AccountMaterialBalance() == 0.0 && status == Finished
        else
          amountNonCircular == old(amountNonCircular) &&
          convRecycling.amountTransferred == old(convRecycling.amountTransferred) &&
          status == (if remaining == 0.0 then Finished else Active)
      // invariants
      ensures hub != null && old(hub.Valid()) ==> hub.Valid()
      ensures old(AllValid(ConstructionsIn(cellmates))) ==> Monotone()
      ensures old(Valid()) && old(AllValid(ConstructionsIn(cellmates))) ==>
        Valid() && AllValid(ConstructionsIn(cellmates))
      ensures old(Valid()) && old(status) == Active && old(lifespan) == 1 ==>
        status == Finished && AccountMaterialBalance() == 0.0
    {
      partner, moved := null, 0.0;
      var currentBalance := AccountMaterialBalance();
      if currentBalance == 0.0 {
        status := Finished;
      }
      if status == Active {
        partner, moved := ActiveStep(currentBalance, target, cellmates);
      }
    }
  }

  /** A construction project: it needs materialAmount of material, takes it
      from its hub or receives it from a demolition project in its cell, and
      on the last tick of its lifespan buys what is still missing. */
  class ConstructionProjectAgent {
    var lifespan: int
    var status: Status
    const materialAmount: real
    var amountRecycled: real
    var amountHub: real
    var amountNonCircular: real
    const hub: RecyclingHub?
    const rawMaterialSupply: RawMaterialSupply

    constructor (hub: RecyclingHub? := null, lifespan: int := 20,
                 status: Status := Passive, materialAmount: real := 0.0)
      ensures this.hub == hub && this.lifespan == lifespan
      ensures this.status == status && this.materialAmount == materialAmount
      ensures amountRecycled == 0.0 && amountHub == 0.0 && amountNonCircular == 0.0
      ensures fresh(rawMaterialSupply) && rawMaterialSupply.amountTransferred == 0.0
      ensures Valid() <==> 0.0 <= materialAmount && (status == Finished ==> materialAmount == 0.0)
    {
      this.lifespan := lifespan;
      this.status := status;
      this.materialAmount := materialAmount;
      amountRecycled, amountHub, amountNonCircular := 0.0, 0.0, 0.0;
      this.hub := hub;
      rawMaterialSupply := new RawMaterialSupply();
    }

    /** account_material_balance for this agent. */
    function AccountMaterialBalance(): real
      reads this`amountRecycled, this`amountHub, this`amountNonCircular
    {
      MaterialBalance(materialAmount, amountRecycled, amountHub, amountNonCircular)
    }

    /** The accounting invariant: no counter is negative, nothing is
        over-accounted, and a finished agent has nothing outstanding. */
    ghost predicate Valid()
      reads this
    {
      0.0 <= amountRecycled && 0.0 <= amountHub && 0.0 <= amountNonCircular &&
      0.0 <= AccountMaterialBalance() &&
      (status == Finished ==> AccountMaterialBalance() == 0.0)
    }

    /** Across one call: none of the three counters went down. */
    twostate predicate Monotone()
      reads this
    {
      old(amountRecycled) <= amountRecycled && old(amountHub) <= amountHub &&
      old(amountNonCircular) <= amountNonCircular
    }

    /** Across one call: nothing the step may change has changed, except the status. */
    twostate predicate Idle()
      reads this, hub, rawMaterialSupply
    {
      lifespan == old(lifespan) &&
      amountRecycled == old(amountRecycled) && amountHub == old(amountHub) &&
      amountNonCircular == old(amountNonCircular) &&
      (hub != null ==> hub.stockLevel == old(hub.stockLevel)) &&
      rawMaterialSupply.amountTransferred == old(rawMaterialSupply.amountTransferred)
    }

    /** transfer_from_hub: takes as much of amount as the hub holds (so the
        removal is never refused) and books it as amount_hub. */
    method TransferFromHub(amount: real) returns (balance: real)
      requires hub != null
      modifies this`amountHub, hub`stockLevel
      ensures var moved := Min(amount, old(hub.stockLevel));
        amountHub == old(amountHub) + moved &&
        hub.stockLevel == old(hub.stockLevel) - moved
      ensures balance == AccountMaterialBalance()
      ensures amount == old(AccountMaterialBalance()) ==> 0.0 <= balance
      ensures old(hub.Valid()) && 0.0 <= amount ==> hub.Valid()
    {
      var amountTransferred := Min(amount, hub.stockLevel);
      amountHub := amountHub + amountTransferred;
      var outcome := hub.Remove(amountTransferred);
      assert outcome == Pass;
      balance := AccountMaterialBalance();
    }

    /** step: one tick of the construction project; it does not move. */
    method Step()
      modifies this, hub, rawMaterialSupply
      // a zero balance finishes the agent and nothing else happens
      ensures old(AccountMaterialBalance()) == 0.0 ==> status == Finished && Idle()
      // an agent that is not active does nothing
      ensures old(AccountMaterialBalance()) != 0.0 && old(status) != Active ==>
        status == old(status) && Idle()
      // in particular a finished agent stays finished and unchanged
      ensures old(status) == Finished ==> status == Finished && Idle()
      // an active agent spends one tick of its lifespan; it never books amount_recycled itself
      ensures old(AccountMaterialBalance()) != 0.0 && old(status) == Active ==>
        lifespan == old(lifespan) - 1 && amountRecycled == old(amountRecycled)
      // with a hub: takes what it still needs, as far as the stock goes
      ensures old(AccountMaterialBalance()) != 0.0 && old(status) == Active && hub != null ==>
        amountHub - old(amountHub) == old(hub.stockLevel) - hub.stockLevel ==
          (if old(AccountMaterialBalance()) > 0.0
           then Min(old(AccountMaterialBalance()), old(hub.stockLevel)) else 0.0)
      ensures old(AccountMaterialBalance()) != 0.0 && old(status) == Active && hub == null ==>
        amountHub == old(amountHub)
      // settling: finished at zero balance; on the last tick the remainder is bought
      ensures old(AccountMaterialBalance()) != 0.0 && old(status) == Active ==>
        var remaining := old(AccountMaterialBalance()) - (amountHub - old(amountHub));
        if old(lifespan) == 1 && remaining > 0.0 then
          amountNonCircular == old(amountNonCircular) + remaining &&
          rawMaterialSupply.amountTransferred == old(rawMaterialSupply.amountTransferred) + remaining &&
          AccountMaterialBalance() == 0.0 && status == Finished
        else
          amountNonCircular == old(amountNonCircular) &&
          rawMaterialSupply.amountTransferred == old(rawMaterialSupply.amountTransferred) &&
          status == (if remaining == 0.0 then Finished else Active)
      // invariants
      ensures hub != null && old(hub.Valid()) ==> hub.Valid()
      ensures (hub != null ==> old(hub.Valid())) ==> Monotone()
      ensures old(Valid()) && (hub != null ==> old(hub.Valid())) ==> Valid()
      ensures old(Valid()) && old(status) == Active && old(lifespan) == 1 ==>
        status == Finished && AccountMaterialBalance() == 0.0
    {
      var currentBalance := AccountMaterialBalance();
      if currentBalance == 0.0 {
        status := Finished;
      }
      if status == Active {
        if currentBalance > 0.0 {
          if hub != null {
            currentBalance := TransferFromHub(currentBalance);
          }
        }
        if currentBalance == 0.0 {
          status := Finished;
        }
        // last step with material still missing
        if lifespan == 1 && currentBalance > 0.0 {
          rawMaterialSupply.Buy(currentBalance);
          amountNonCircular := amountNonCircular + currentBalance;
          status := Finished;
        }
        lifespan := lifespan - 1;
      }
    }
  }

  /** A building to be demolished; Location is the type of its geographic
      position, which nothing here interprets. */
  class DemolitionSite<Location> {
    const location: Location
    const constructionYear: int
    const size: real
    const factorConcrete: real

    constructor (location: Location, size: real, constructionYear: int, factorConcrete: real)
      ensures this.location == location && this.size == size
      ensures this.constructionYear == constructionYear && this.factorConcrete == factorConcrete
    {
      this.location := location;
      this.constructionYear := constructionYear;
      this.size := size;
      this.factorConcrete := factorConcrete;
    }

    /** calculate_supply: the concrete the demolition yields, proportional to
        the site's size with the site's concrete factor. */
    function CalculateSupply(): (r: real)
      ensures 0.0 <= size && 0.0 <= factorConcrete ==> 0.0 <= r
      ensures size == 0.0 || factorConcrete == 0.0 ==> r == 0.0
    {
      factorConcrete * size
    }
  }
}
