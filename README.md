# Recycling hubs: material accounting

This project is a Dafny model of the accounting core of an agent-based
simulation of concrete recycling. Three kinds of agent share a grid:
- **Demolition projects** have material to get rid of.
- **Construction projects** need material.
- **Recycling hubs** buffer material between them, up to a capacity.

On every tick, an active demolition project moves to a neighbouring cell. If
it has a hub, it loads its outstanding material into the hub while the hub
has room. If it has no hub, it hands the material to an active construction
project in its new cell. An active construction project takes what it still
needs from its hub. On the last tick of its lifespan, a project settles what
is left outside the circular economy: the demolition project dumps it into
conventional waste recycling, and the construction project buys raw
material. The model's data collector registers seven model reporters, each a
sum over the scheduled agents of one kind, and one agent reporter (the
agent's id). Five of the model reporters are modelled. The other two read a
`current_amount` attribute that no agent class defines. The model stops
after a fixed number of ticks.

Modules:
- `utils.dfy` (`Utils`): the project status.
- `agents.dfy` (`Agents`): the hub, the two non-circular sinks, the two
  project agents and the demolition site, as classes whose methods update
  their fields in place.
- `model.dfy` (`Model`): the reporters, as functions over the schedule's
  agent list, and the model's tick counter, as a class.

Amounts are `real`. Every transfer is clamped with a minimum, and the model
proves three consequences: the hub's refusing branches are never taken on
the transfer paths, a hub stays between 0 and its capacity, and no
project's outstanding balance becomes negative.

The model follows the agent code as written, also where other parts of the
repository expect more of it:
- A demolition project's transfer to its hub is booked in `amountRecycled`
  (agents.py line 126), not in `amountHub`. `calculate_recycled_hub` sums
  `amount_hub` over construction agents only (model.py lines 19-22). So a
  demolition's hub material and its direct recycling land in the same
  counter, and the hub reporter sees only the construction side.
- The status list in utils.py includes `lifespan_alert` and `incomplete`
  (utils.py lines 14-19), but no agent code sets them. Nothing turns a
  passive project active either. Neither is modelled as a transition.
- The two current-amount reporters read a `current_amount` attribute
  (model.py lines 42 and 47) that no agent has, so the model has no such
  field.
- Every scheduled agent is one of three variants of the datatype
  `Agents.Agent`. The reporters' `isinstance` filter is a test on the
  variant.
- Raising `ValueError` in `load`/`remove` becomes an `Outcome` result. On
  failure the state is unchanged.

## Model

| member | source | states |
|---|---|---|
| Agents.Min | recycling_hubs/agents.py:125 | the minimum is at most each argument and equals one of them |
| Agents.MaterialBalance | recycling_hubs/agents.py:69-70 | the balance plus the three booked amounts is the target amount; the balance is zero exactly when everything is booked and positive exactly when less is booked |
| Agents.ActiveConstructionAgents | recycling_hubs/agents.py:139-142 | every candidate is an active construction agent of the cell, every active construction agent of the cell is a candidate, and there are at most as many candidates as cellmates |
| Agents.RecyclingHub.constructor | recycling_hubs/agents.py:6-9 | a new hub is empty, has the given capacity (1000 by default) and satisfies the hub invariant when the capacity is non-negative |
| Agents.RecyclingHub.AvailableCapacity | recycling_hubs/agents.py:11-12 | stock plus available capacity is the capacity; under the invariant it lies between 0 and the capacity |
| Agents.RecyclingHub.HasCapacity | recycling_hubs/agents.py:14-15 | holds exactly when the stock is below the capacity |
| Agents.RecyclingHub.Load | recycling_hubs/agents.py:18-22 | refused (CapacityExceeded) exactly when the new stock would exceed the capacity, and then the stock is unchanged; otherwise the stock rises by exactly the amount; a non-negative load keeps 0 <= stock <= capacity |
| Agents.RecyclingHub.Remove | recycling_hubs/agents.py:25-29 | refused (InsufficientStock) exactly when more than the stock is asked for, and then the stock is unchanged; otherwise the stock falls by exactly the amount; a non-negative removal keeps the invariant |
| Agents.ConventionalWasteRecycling.constructor | recycling_hubs/agents.py:37-38 | a new sink has received nothing |
| Agents.ConventionalWasteRecycling.Dump | recycling_hubs/agents.py:40-41 | the received total rises by exactly the amount |
| Agents.RawMaterialSupply.constructor | recycling_hubs/agents.py:45-46 | a new supply has delivered nothing |
| Agents.RawMaterialSupply.Buy | recycling_hubs/agents.py:48-49 | the delivered total rises by exactly the amount |
| Agents.DemolitionProjectAgent.constructor | recycling_hubs/agents.py:54-67 | the agent gets the given position, hub, lifespan, status and target amount, zero booked amounts and a fresh empty waste sink; it satisfies the accounting invariant exactly when the target is non-negative and a finished agent has nothing to do |
| Agents.DemolitionProjectAgent.Move | recycling_hubs/agents.py:115-122 | the agent is in the target cell |
| Agents.DemolitionProjectAgent.TransferToHub | recycling_hubs/agents.py:124-128 | min(amount, the hub's available capacity) is added both to amountRecycled and to the hub's stock, so the load is never refused; the result is the new balance, non-negative when amount was the balance; the hub keeps its invariant |
| Agents.DemolitionProjectAgent.CollectActiveConstructionAgents | recycling_hubs/agents.py:139-142 | the loop collects exactly the active construction agents of the cell, in cell order |
| Agents.DemolitionProjectAgent.Recycle | recycling_hubs/agents.py:135-152 | there is a partner exactly when the cell holds an active construction agent, and the partner is one of them; both sides' amountRecycled rise by min(amount, the partner's balance); no other cellmate's counter changes; with no candidate nothing changes; neither balance becomes negative |
| Agents.DemolitionProjectAgent.TransferToConstruction | recycling_hubs/agents.py:130-133 | recycles only when the amount is positive and the cell has a candidate; the result is the new balance |
| Agents.DemolitionProjectAgent.MoveAndTransfer | recycling_hubs/agents.py:89-102 | the agent moves to the target; with a hub, a positive balance goes to the hub only while it has capacity, and no construction agent is credited; without a hub, a positive balance goes directly to a cellmate; the new balance is the old one minus what moved, and it stays non-negative; the hub and all cellmates keep their invariants |
| Agents.DemolitionProjectAgent.Settle | recycling_hubs/agents.py:104-113 | lifespan drops by 1; on the last tick a positive balance goes whole into amountNonCircular and the waste sink, the balance becomes 0 and the agent finishes; otherwise nothing is dumped and the agent finishes exactly when the balance is 0 |
| Agents.DemolitionProjectAgent.ActiveStep | recycling_hubs/agents.py:89-113 | an active step with a non-zero balance: move, transfer and settle as above, stated against the state before the step |
| Agents.DemolitionProjectAgent.Step | recycling_hubs/agents.py:83-113 | a zero balance finishes the agent and changes nothing else; an agent that is not active (in particular a finished one) changes no counter, lifespan, position, hub or sink; an active agent moves, spends one tick of lifespan and never books amountHub; with a hub it only loads while the hub has capacity and never recycles directly; without a hub it recycles directly; the last tick dumps the remainder and finishes; the hub invariant, the agent's invariant, its cellmates' invariants and counter monotonicity are preserved |
| Agents.ConstructionProjectAgent.constructor | recycling_hubs/agents.py:158-161 | the agent gets the given hub, lifespan, status and target amount, zero booked amounts and a fresh empty raw-material supply; it satisfies the accounting invariant exactly when the target is non-negative and a finished agent has nothing to do |
| Agents.ConstructionProjectAgent.TransferFromHub | recycling_hubs/agents.py:203-207 | min(amount, stock) is added to amountHub and taken from the hub's stock, so the removal is never refused; the new balance is non-negative when amount was the balance; the hub keeps its invariant |
| Agents.ConstructionProjectAgent.Step | recycling_hubs/agents.py:170-201 | a zero balance finishes the agent and changes nothing else; an agent that is not active changes nothing; an active agent spends one tick and never books amountRecycled itself; with a hub, the increase in amountHub equals the decrease in stock and is min(balance, stock); the last tick buys the remainder and finishes; the hub's and the agent's invariants and counter monotonicity are preserved |
| Agents.DemolitionSite.constructor | recycling_hubs/agents.py:212-221 | the site records its location, construction year, size and concrete factor |
| Agents.DemolitionSite.CalculateSupply | recycling_hubs/agents.py:223-224 | the supply is non-negative for a non-negative size and factor, and zero when either is zero |
| Model.Readings | recycling_hubs/model.py:13-14 | a reporter's comprehension has at most one reading per scheduled agent |
| Model.SumAppend | recycling_hubs/model.py:15 | the sum of a concatenation is the sum of the parts |
| Model.ReadingsAppend | recycling_hubs/model.py:13-14 | the comprehension over a concatenated schedule is the concatenation of the comprehensions |
| Model.ReportAppend | recycling_hubs/model.py:12-38 | every reporter is additive over a split of the schedule |
| Model.ReportOfOne | recycling_hubs/model.py:12-38 | one agent contributes its reading when the reporter selects its kind, and 0 otherwise |
| Model.ReportIgnoresUnselected | recycling_hubs/model.py:11-22 | an agent of a kind the reporter does not select leaves the report unchanged, so the demolition side of a direct or hub transfer is not counted a second time |
| Model.ReportNonNegative | recycling_hubs/model.py:12-38 | a reporter's sum is non-negative when every reading it selects is |
| Model.ReportersNonNegative | recycling_hubs/model.py:12-33 | when every project agent keeps its accounting invariant, the direct, hub, not-recycled and raw-material reporters are non-negative |
| Model.StockLevelBounds | recycling_hubs/model.py:36-38 | when every hub keeps its invariant, the total hub stock is between 0 and the total capacity of the hubs |
| Model.ReportShifted | recycling_hubs/model.py:12-38 | across two states, if one object's reading rose by an amount and no other selected reading changed, the report rose by that amount once per occurrence of the object in the schedule |
| Model.DirectTransferCountedOnce | recycling_hubs/model.py:11-15 | when a direct transfer credited its partner among the cellmates (as the demolition step guarantees) and the partner is scheduled once, the direct-recycling report rises by exactly the transferred amount: the transfer is counted once |
| Model.HubTransferConserved | recycling_hubs/model.py:19-22 | when a construction agent's amountHub rose by what its hub's stock fell (as the construction step guarantees) and the agent and its hub are each scheduled once, the hub reporter plus the stock reporter is unchanged |
| Model.ConcreteRecyclingModel.constructor | recycling_hubs/model.py:63-64 | the run lasts 37 ticks, starts at tick 0 and is running |
| Model.ConcreteRecyclingModel.Step | recycling_hubs/model.py:125-131 | the tick counter rises by exactly 1; the run stays on exactly while it was on and fewer than duration ticks have passed; the run invariant is kept |

## Left out

- Model.ConcreteRecyclingModel.Step: it does not step the scheduled agents or collect data, because the random activation order and the data collector are framework code. Each agent's step is modelled on its own.
- Model.ConcreteRecyclingModel.constructor: grid creation, random hub choice, agent construction and placement are left out, because they are random and go through the framework grid. The agent constructors it calls pass keyword arguments the agent classes do not define (`recycling_tendency`, `event_rate`, `total_amount`).
- Agents.DemolitionProjectAgent.Move: the neighbourhood query and the random choice of the new cell are framework calls. The cell is a parameter, and so is the list of agents in it.
- Agents.DemolitionProjectAgent.Recycle: `random.choice` is a nondeterministic pick from the candidates. The partner and the transferred amount are ghost results.
- The framework's `Agent`/`Model` base classes, `unique_id` and the model reference are left out because no accounting depends on them.
- `get_demolition_current_amount` and `get_construction_current_amount` read a `current_amount` attribute that no agent class defines.
- `calculate_lifespan` and `calculate_flow` in utils.py are thin wrappers over scipy's Poisson distribution (floating point, foreign code).
- server.py (visualisation) and simulation.py (run loop and plotting) are left out.
- The `print` diagnostics are left out. So are `RecyclingHub.step`, which only prints, and the unused `ConstructionProjectAgent.step_old`.
- Amounts are exact reals, so float rounding is not modelled. The `* 1.` in the reporters is the identity on reals.
- The `ProjectAgent` base class has no separate model. Its balance is the shared function `MaterialBalance`, and each project class repeats its fields.
