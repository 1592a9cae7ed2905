# DAO Cross batch matching, modelled in Dafny

DAO Cross matches one static batch of limit orders across token pairs. Each
order names a base token, a quote token, a side (buy or sell), a quantity of
the base token and a limit price in quote per base. A snapshot gives each
token a price in one reference currency. The matcher returns one executed
quantity per order, aligned by position, and the objective value. The
objective is the total executed volume: each executed quantity valued at its
base token's price.

The repository's unit tests in `defi/dao_cross/test/test_optimize.py` pin the
matching rule down exactly. The optimiser itself (`run_solver` in
`defi/dao_cross/optimize.py`) and the order type (`defi/dao_cross/order.py`)
are not part of this model. The optimiser hands a linear program to an
external solver. This model replaces that solve with the closed-form optimum
the program has, and proves the optimum correct:

- The implied rate of a pair is `price[quote] / price[base]`.
- A buy is eligible when its limit is at least the rate. A sell is eligible
  when its limit is at most the rate. A limit equal to the rate is eligible.
- An execution is admissible ("feasible") when every entry lies between 0
  and the order's quantity, ineligible orders execute 0, and for every base
  token the executed buys equal the executed sells.
- Base-token groups are independent. So the optimum is the sum over base
  tokens `t` of `2 * price[t] * min(B_t, S_t)`, where `B_t` and `S_t` are the
  eligible buy and sell quantities of `t`.
- `Matching.Match` fills each group in batch order up to `min(B_t, S_t)` on
  each side. It is proved feasible and to reach the closed form. No feasible
  execution trades more.

Files:

- `wrappers.dfy`: `Option` and `Result`.
- `orders.dfy` (module `Orders`): the order value, prices, rate resolution
  and eligibility.
- `matching.dfy` (module `Matching`): side totals, feasibility, volume, the
  closed form, the matcher, the optimality proof and the entry point
  `RunSolver`.
- `fixtures.dfy` (module `Fixtures`): `_generate_test_orders` as a method with
  a loop, its function twin, and the two toy-order fixture builders.
- `scenarios.dfy` (module `Scenarios`): the six tests that have bodies, as
  lemmas.

A test's `_check` (test_optimize.py:47-69) is modelled by the predicate
`Scenarios.CheckPasses`. It holds when three things are true. `RunSolver`
accepts the batch and reports exactly the expected objective. It reports one
quantity per order, which is the "(N)" prefix of the expected string. The
expected quantities are themselves feasible and trade the expected volume.
The exact split is not compared, because the solver may return any optimal
vertex (see "Left out").

`RunSolver` rejects a batch before matching when a referenced token has no
price or a non-positive one, or when an order has a non-positive quantity or
limit or the same base and quote token. These checks stand in for
`optimize.py`, which is not part of this model.

## Model

| member | source | states |
|---|---|---|
| `Orders.ResolveRate` | defi/dao_cross/test/test_optimize.py:58-59 | A rate resolves exactly when both tokens have a positive price. The rate is positive and, multiplied by the base price, gives the quote price. Otherwise the error names the base token if it lacks a positive price, else the quote token; the named token lacks a positive price, and the error is `MissingPrice` exactly when the token has no entry. |
| `Orders.Rate` | defi/dao_cross/test/test_optimize.py:215 | An order's rate, in quote per base, is positive and converts the base token's price into the quote token's. |
| `Orders.EligibleAtRate` | defi/dao_cross/test/test_optimize.py:131-142 | A limit exactly at the implied rate is eligible on either side, so the order's bound is its full quantity. |
| `Orders.EligibleCrossMultiplied` | defi/dao_cross/test/test_optimize.py:352-353 | Eligibility holds if and only if the limit times the base price is at least (buy) or at most (sell) the quote price. This is the division-free form of the clearing-price condition. |
| `Matching.SideTotalAppend` | defi/dao_cross/test/test_optimize.py:359 | Side totals of a batch formed by concatenation are the sums of the parts' side totals. |
| `Matching.VolumeAppend` | defi/dao_cross/test/test_optimize.py:359 | The volume of a concatenated batch is the sum of the parts' volumes. |
| `Matching.Regroup` | defi/dao_cross/test/test_optimize.py:164-185 | For any duplicate-free list of priced tokens covering every base token, the volume equals the sum over those tokens of price times executed buys plus executed sells. |
| `Matching.FlowBound` | defi/dao_cross/test/test_optimize.py:60 | In a feasible execution, one base token's valued flow is at most twice its price times the smaller eligible side. |
| `Matching.FillBounds` | defi/dao_cross/test/test_optimize.py:124-142 | The matcher fills each order with between 0 and its bound. |
| `Matching.MatchTotals` | defi/dao_cross/test/test_optimize.py:164-185 | The matcher fills both sides of every base token exactly to the smaller eligible side. |
| `Matching.MatchFeasible` | defi/dao_cross/test/test_optimize.py:359-362 | The matcher's output is feasible: aligned by position, within bounds, 0 for ineligible orders, and balanced per base token. |
| `Matching.MatchVolume` | defi/dao_cross/test/test_optimize.py:60 | The matcher's volume equals the closed-form optimum. |
| `Matching.VolumeAtMostOptimal` | defi/dao_cross/test/test_optimize.py:365-387 | No feasible execution's volume exceeds the closed-form optimum. |
| `Matching.OptimalIsUpperBound` | defi/dao_cross/test/test_optimize.py:60 | The same bound, stated for all feasible executions at once. |
| `Matching.OptimalVolumeOver` | defi/dao_cross/test/test_optimize.py:174-185 | The closed form is the same over any duplicate-free, priced list that names every base token. |
| `Matching.IneligibleIdle` | defi/dao_cross/test/test_optimize.py:365-387 | An order whose limit conflicts with the rate executes 0 in every feasible execution. |
| `Matching.CheckBatch` | defi/dao_cross/test/test_optimize.py:64 | No error is reported exactly when the batch is priced and well formed. The error is the first one in batch order: a reported malformed order is at a valid index and every order before it is valid; a reported price error names a token, lacking a positive price, of a well-formed order whose predecessors are all valid, and it is `MissingPrice` exactly when the token has no entry. |
| `Matching.RunSolver` | defi/dao_cross/test/test_optimize.py:64-69 | Succeeds exactly on valid batches. Fails with the first input error otherwise. On success, the executed vector is feasible, the objective is its volume, the objective equals the closed form, and every feasible execution trades at most the objective. |
| `Fixtures.GenerateTestOrders` | defi/dao_cross/test/test_optimize.py:13-44 | Succeeds exactly when every column covers the base-token column. It then returns one order per index, in input order, with order i taking entry i of every column. On failure, the error index is the length of a too-short column. |
| `Fixtures.BtcOrders` | defi/dao_cross/test/test_optimize.py:208-276 | The BTC fixture equals the column-built batch of BTC/ETH orders: buys of 4 and 5, sells of 6 and 2, with the given limits. |
| `Fixtures.EthOrders` | defi/dao_cross/test/test_optimize.py:278-346 | The ETH fixture equals the column-built batch of ETH/BTC orders: buys of 1 and 9, sells of 8 and 6, with the given limits. |
| `Scenarios.SolverOneTest` | defi/dao_cross/test/test_optimize.py:83-100 | The check passes with volume 32 and quantities 8, 8. |
| `Scenarios.SolverTwoTest` | defi/dao_cross/test/test_optimize.py:126-143 | The first buy's limit 4 equals the rate 8/2 and is eligible. The check passes with volume 32 and quantities 2, 6, 7, 1. |
| `Scenarios.SolverThreeTest` | defi/dao_cross/test/test_optimize.py:169-186 | The check passes with volume 132 = 12·3 + 16·6 and quantities 4, 2, 5, 1, 6, 2, 8, 0. Each group balances on its own. |
| `Scenarios.SolverFourTest` | defi/dao_cross/test/test_optimize.py:348-363 | The check passes on the concatenated fixtures with volume 192 = 16·2 + 20·8 and quantities 3, 5, 6, 2, 1, 9, 8, 2. |
| `Scenarios.SolverFourBuyOutTest` | defi/dao_cross/test/test_optimize.py:365-375 | The buy with limit 2 below the rate 4 is ineligible and executes 0 in every feasible execution. The check passes with volume 16 = 2·2·min(4, 8) and quantities 4, 0, 4, 0. |
| `Scenarios.SolverFourSellOutTest` | defi/dao_cross/test/test_optimize.py:377-387 | The sell with limit 6 above the rate 4 is ineligible and executes 0 in every feasible execution. The check passes with volume 24 = 2·2·min(9, 6) and quantities 1, 5, 6, 0. |

## Left out

- The linear-program solve inside `run_solver` and its solver status: the closed-form optimum replaces it. A feasible optimum always exists, so the non-optimal-status error path has no counterpart.
- Which optimal split is returned under ties: `RunSolver` returns the in-order fill. The tests' exact vectors are proved feasible and optimal instead of being equal to it. For example, line 362 expects buys 3 and 5, while the model fills 4 and 4.
- Floating point and the solver's tolerance: quantities, limits and prices are exact reals. The formatting of the expected quantities (`hprint.format_list`, `fuzzy_match`) is not modelled beyond the count of entries.
- The timestamp, deposit address and wallet address of an order: they do not take part in matching.
- The action strings "buy" and "sell" are modelled as the two values of `Side`. How `Order` treats any other string is not modelled, because `order.py` is not part of this model.
- Fixtures.GenerateTestOrders: the Python loop raises `IndexError` on a too-short column. The model returns a `Failure` carrying that index.
- Fixtures.BtcOrders: the `dassert_eq` length check on the limits becomes a precondition.
- Fixtures.EthOrders: the `dassert_eq` length check on the limits becomes a precondition.
- Balance of quote tokens: only base-token flow is constrained. Nothing is proved about groups that mix several quote tokens, and no test has one.
- The test methods with empty bodies (`test2` and `test3` of the first three test classes) state nothing to model.
- Idempotence of a rerun: every member is a function of its inputs, so no separate lemma is stated.
- `sorrentum_sandbox/examples/ml_projects/Issue28_Team9_Implement_sandbox_for_Kaiko/download_to_db.py`: command-line parsing, REST download and database saving are I/O outside the matcher.
