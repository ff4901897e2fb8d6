# mortgage-rs core, modelled in Dafny

mortgage-rs is a small HTTP service. It computes mortgage terms from a request and stores every result in an in-memory cache. This project models its core:

- The `Mortgage` record and its validation and derivation stages. The live copy (`src/entities/mortgage.rs`) is class `Entities.Mortgage`. The older copy (`src/logic/mortgage.rs`) is class `LegacyLogic.Mortgage`. The stages are:
  - the program check, which counts the explicitly-true flags in a loop;
  - the 20 % down-payment check;
  - the loan sum;
  - rate selection by priority (salary 8, military 9, base 10);
  - the monthly payment;
  - the overpayment;
  - the last payment date.
- The append-only result cache `AppState`. It is class `Cache.AppState`, with a counter `id` and a `map<U32, LoanRecord>`. Its abstract value is `CacheView`, and `Put` is what one insert does to it.
- The two handlers. `Handler.HandleMortgage` runs the stages in order, stops at the first failure, and inserts only after every stage succeeded. It is proved against the value-level function `Handler.LivePipeline`. `Handler.HandleCache` lists every entry, tagged with its key.
- The error taxonomy `Errors.AppError`: its messages and its mapping to an HTTP response.

Modules: `Records` holds the value types: `Params`, `Program`, `Aggregates`, `LoanRecord` (the value a `.clone()` copies), `Request` and `Response`. `Programs` holds the policy that both copies share: the constants, what "selected" means, the counting, the 20 % rule and the priority rate. `Entities`, `LegacyLogic`, `Cache`, `Handler` and `Errors` follow the source files.

Modelling choices:

- Every `f64` is a Dafny `real`. This is an idealisation that ignores rounding (see "## Left out" for where rounding changes a result).
- An `unwrap()` on `None` in the live `rate_calc` is an explicit `Panic` outcome. At the handler level it is the reply `Panicked`: the request task aborts and the cache stays unchanged.
- `u8` and `u32` are subset types `U8` and `U32`. The counter increment `id += 1` requires `id < 0xFFFF_FFFF`. The calculation endpoint demands this only of requests that reach the insert.
- The annuity formula and the clock are parameters. `Annuity` maps (rate, loan sum, months) to the monthly payment. `Calendar` maps months to the formatted date that many months after now.
- The unordered `HashMap` iteration in `cache` is a loop that picks any remaining key with `:|`. So the listing is specified as a set: every key exactly once, in any order.

Behaviour of the live code worth knowing:

- Unlike the legacy copy, the live program check rejects only more than one selected program: zero selected programs pass it.
- Unlike the legacy copy, the live rate selection can fail. It reports `LoanProgramEmpty` only when all three flags are explicitly `false`. When it reaches an absent flag before a `true` one, it panics (see Findings).
- The live tree does not compile. The entities `Mortgage` derives neither `Clone` nor `Default`, and its `Params` fields are private, yet src/adapter/router/handler.rs:32 clones it and :51-53 read those fields. `Program` (src/entities/mortgage.rs:35) and `Response` (src/entities/schema.rs:14) derive no `Clone` either, yet src/adapter/router/handler.rs:54 and :61 call `.clone()` on them. The model keeps the evident intent: the cache stores a value copy, and the listing copies each stored field.

The legacy module also has the unit tests of `src/logic/mortgage.rs` as client methods (`LegacyLogic.TestLoanProgramCheck` and the others). `Handler.TestStoreThenList` checks a store followed by a listing. These methods only assert; they have no rows below.

## Model

| member | source | states |
|---|---|---|
| Errors.ExactlyFourKinds | src/errors.rs:12-25 | every error value is one of the four kinds `LoanProgramEmpty`, `LoanProgramMoreThanOne`, `MinInitialPayment`, `EmptyCache`, and there are exactly four |
| Errors.MessagesDistinct | src/errors.rs:14-23 | the four messages ("choose credit program", "choose only 1 credit program", "the initial payment should be more", "empty cache") are pairwise distinct |
| Errors.IntoResponse | src/errors.rs:28-40 | every variant maps to status 400 (Bad Request) with body field `error` equal to the variant's message |
| Errors.ResponsesDistinguishKinds | src/errors.rs:28-40 | the status is always 400, yet different kinds always give different responses |
| Records.UnwrapOrDefault | src/entities/mortgage.rs:77-81 | a defaulted flag is true exactly when it is explicitly `Some(true)`, so `None` counts as false |
| Programs.CheckVec | src/logic/mortgage.rs:76-80 | the vector the check walks has one entry per program, in the order salary, military, base, and entry i is true iff that program is selected |
| Programs.CountClassifies | src/logic/mortgage.rs:82-94 | the number of true entries is 0 iff no program is selected, 1 iff exactly one is, and more than 1 iff at least two are |
| Programs.SelectionTrichotomy | src/logic/mortgage.rs:88-96 | every selection is exactly one of: none selected, exactly one, several |
| Programs.BelowMinimumIffNotCovered | src/entities/mortgage.rs:97-105 | `initial_payment < object_cost * 20 / 100` holds exactly when the down payment is less than a fifth of the cost |
| Programs.PriorityRateIsFirstChosen | src/logic/mortgage.rs:116-123 | the first selected program in the order salary, military, base fixes the rate (8, 9, 10), whatever the later flags say |
| Programs.PriorityRateNone | src/logic/mortgage.rs:116-124 | the priority selection finds no rate exactly when no program is selected |
| Programs.SingleProgramRate | src/logic/mortgage.rs:116-123 | with exactly one program selected, its own rate is taken |
| Entities.NewRecord | src/entities/mortgage.rs:57-70 | the initial record copies cost, payment, months and the three flags from the request verbatim, with zero/empty aggregates |
| Entities.Mortgage.constructor | src/entities/mortgage.rs:57-70 | `Mortgage::new` produces that initial record |
| Entities.Mortgage.LoanProgramCheck | src/entities/mortgage.rs:74-94 | the counting loop returns `LoanProgramMoreThanOne` iff two or more flags are `Some(true)`, otherwise Ok (zero selected passes), and changes nothing |
| Entities.Mortgage.MinInitialPaymentCheck | src/entities/mortgage.rs:97-105 | Ok iff the down payment is at least 20 % of the cost, otherwise `MinInitialPayment`; changes nothing |
| Entities.Mortgage.LoanSumCalc | src/entities/mortgage.rs:108-110 | sets `loan_sum` so that loan sum + down payment = cost; no other field changes |
| Entities.LiveRatePanicsIff | src/entities/mortgage.rs:113-125 | the live rate selection panics iff, in the order salary, military, base, it reaches an absent flag while every earlier flag is `Some(false)` |
| Entities.LiveRateNoProgramIff | src/entities/mortgage.rs:113-125 | it reports no program iff all three flags are `Some(false)` |
| Entities.LiveRatePicksPriorityRate | src/entities/mortgage.rs:113-122 | the rate it picks is the priority rate; when it does not panic, it picks one iff some program is selected |
| Entities.Mortgage.RateCalc | src/entities/mortgage.rs:113-126 | Ok with the priority rate set, `Err(LoanProgramEmpty)` with the rate unchanged, or Panic with nothing changed, each exactly in the cases above |
| Entities.Mortgage.MonthlyPaymentCalc | src/entities/mortgage.rs:129-138 | sets only `monthly_payment`, as a function of the current rate, loan sum and term |
| Entities.Mortgage.OverpaymentCalc | src/entities/mortgage.rs:141-144 | sets only `overpayment`, so that loan sum + overpayment = monthly payment × months |
| Entities.Mortgage.LastPaymentDateCalc | src/entities/mortgage.rs:147-153 | sets only `last_payment_date`, to the date `months` months after now |
| LegacyLogic.Mortgage.constructor | src/logic/mortgage.rs:56-70 | `Mortgage::new` copies the request verbatim, with default aggregates |
| LegacyLogic.Mortgage.Default | src/logic/mortgage.rs:18-23 | `Mortgage::default()` has zero parameters, no flags and default aggregates |
| LegacyLogic.Mortgage.LoanProgramCheck | src/logic/mortgage.rs:73-97 | Ok iff exactly one flag is `Some(true)`; `LoanProgramMoreThanOne` iff several; `LoanProgramEmpty` iff none; changes nothing |
| LegacyLogic.Mortgage.MinInitialPaymentCheck | src/logic/mortgage.rs:100-108 | Ok iff the down payment is at least 20 % of the cost, otherwise `MinInitialPayment`; changes nothing |
| LegacyLogic.Mortgage.LoanSumCalc | src/logic/mortgage.rs:111-113 | loan sum + down payment = cost; nothing else changes |
| LegacyLogic.Mortgage.RateCalc | src/logic/mortgage.rs:116-124 | sets the priority rate (salary 8 > military 9 > base 10); with no program selected nothing changes; never fails |
| LegacyLogic.Mortgage.MonthlyPaymentCalc | src/logic/mortgage.rs:127-136 | sets only `monthly_payment`, as a function of rate, loan sum and term |
| LegacyLogic.Mortgage.OverpaymentCalc | src/logic/mortgage.rs:139-142 | sets only `overpayment`, so that loan sum + overpayment = monthly payment × months |
| LegacyLogic.Mortgage.LastPaymentDateCalc | src/logic/mortgage.rs:145-151 | sets only `last_payment_date`, from the term |
| Cache.AppState.constructor | src/adapter/cache/mod.rs:9-13 | the default state has `id = 0` and an empty cache |
| Cache.Put | src/adapter/cache/mod.rs:18-20 | one insert stores the record under the old `id`, raises `id` by exactly 1, and leaves every other entry unchanged |
| Cache.PutPreservesWellFormed | src/adapter/cache/mod.rs:16-21 | if the keys are exactly `0..id-1`, they still are after an insert; the key used was free, so nothing is overwritten, and the size grows by one |
| Cache.WellFormedSize | src/adapter/cache/mod.rs:10-13 | when the keys are exactly `0..id-1`, the cache holds `id` entries |
| Cache.AppState.Insert | src/adapter/cache/mod.rs:16-21 | requires `id < 2^32 - 1`, performs `Put` on the state, keeps the key invariant, and never overwrites an entry |
| Cache.Replay | src/adapter/cache/mod.rs:18-20 | n inserts from the default state leave `id = n` with keys exactly `0..n-1` |
| Cache.ReplayAssignsInOrder | src/adapter/cache/mod.rs:18-20 | the i-th of n sequential inserts is stored under key i |
| Handler.Derived | src/adapter/router/handler.rs:22-30 | the stages after the rate give a record with the request's data, the given rate, loan sum + down payment = cost, the monthly payment for (rate, loan sum, months), loan sum + overpayment = payment × months, and the date for the term |
| Handler.HandleMortgage | src/adapter/router/handler.rs:11-35 | the stages run in source order and the reply is `LivePipeline`'s (the u32 counter bound is required only of requests that reach the insert); on success exactly one insert of the returned record; on any failure or panic the cache is unchanged |
| Handler.ProgramCheckComesFirst | src/adapter/router/handler.rs:16-18 | the reply is `LoanProgramMoreThanOne` iff several programs are selected, whatever the other fields say |
| Handler.PaymentCheckComesSecond | src/adapter/router/handler.rs:18-20 | the reply is `MinInitialPayment` iff the program check passes and the down payment is below 20 % |
| Handler.NoProgramShortPaymentReportsPayment | src/adapter/router/handler.rs:18-20 | with no true flag and a short down payment, the reply is `MinInitialPayment`, because the live program check lets zero programs through |
| Handler.LiveComputedIff | src/adapter/router/handler.rs:16-34 | a record is produced iff exactly one program is selected, the down payment covers 20 %, and no absent flag is reached |
| Handler.LivePanicsIff | src/adapter/router/handler.rs:16-24 | the request aborts iff both checks pass and rate selection reaches an absent flag |
| Handler.LiveComputedRecord | src/adapter/router/handler.rs:16-34 | a produced record carries the request's data and the selected program's rate, with the derived aggregates |
| Handler.LiveAgreesWithCorrected | src/adapter/router/handler.rs:16-34 | whenever the live endpoint does not panic, it answers exactly as the corrected one |
| Handler.MilitaryOnlyRequestPanics | src/entities/mortgage.rs:113-125 | a request naming only `military` (salary absent) panics as written; the corrected pipeline computes it |
| Handler.CorrectedPipelineOutcomes | src/adapter/router/handler.rs:16-34 | corrected: no request panics; a record iff exactly one program and enough down payment; `LoanProgramEmpty` iff none selected with enough down payment; `LoanProgramMoreThanOne` iff several |
| Handler.ToResponse | src/adapter/router/handler.rs:50-59 | a listing element has the entry's key as `id` and the stored params, program and aggregates |
| Handler.HandleCache | src/adapter/router/handler.rs:38-65 | `EmptyCache` iff the cache is empty; otherwise one element per entry, each key exactly once, each element equal to its stored record under that key; the state is not modified |

## Left out

- Entities.Mortgage.MonthlyPaymentCalc: the annuity formula with `powf` and `ceil` is not modelled, because its results depend on IEEE rounding. The payment is a parameter `Annuity` of rate, loan sum and term. So the contract says only which inputs the payment depends on.
- LegacyLogic.Mortgage.MonthlyPaymentCalc: same as above. The legacy tests of this stage (src/logic/mortgage.rs:218-235) are not modelled.
- Entities.Mortgage.LastPaymentDateCalc: `Utc::now()`, `checked_add_months` and `format` are a clock and a foreign library. The date is a parameter `Calendar` giving the formatted date for a term. The `unwrap()` on an out-of-range date is not modelled.
- LegacyLogic.Mortgage.LastPaymentDateCalc: same as above. Its test (src/logic/mortgage.rs:247-258) is not modelled.
- Floating point: `f64` values are `real`, so rounding, NaN and infinities are not modelled. At the exact 20 % boundary, `f64` rounding can reject a down payment that the real-valued contract accepts. Example: cost 9.56 and down payment 1.912. In doubles, `9.56 * 20.0 / 100.0` is `1.9120000000000001`, so the source returns `MinInitialPayment`, while `PaymentCovers` holds (5 × 1.912 = 9.56) and the model computes a record.
- `Arc<RwLock<…>>`, `async`/`.await` and lock poisoning (`.unwrap()` on the lock) are not modelled. Calls are serialised by the lock, so the model is sequential.
- The iteration order of `HashMap` is not fixed. The listing is specified without an order.
- The `i8` counter of the program check is not modelled as 8-bit: it counts at most three flags, so it cannot overflow.
- Counter overflow: at `id == u32::MAX` the source stores the entry and then `id += 1` overflows (src/adapter/cache/mod.rs:19-20). A debug build panics while holding the write lock, which poisons it, so every later `read().unwrap()`/`write().unwrap()` panics. A release build wraps the counter to 0, and the next insert overwrites key 0. The model excludes this by requiring `id < 0xFFFF_FFFF` of `Cache.AppState.Insert`, and of `Handler.HandleMortgage` only for requests that reach the insert.
- Serde derives, JSON extraction and axum's `IntoResponse` mechanics (wire format) are not modelled. The error body is the datatype `ErrorBody`.
- src/server/mod.rs, src/server/cli.rs, src/main.rs, src/adapter/router/mod.rs and src/adapter/router/middleware.rs are not part of this model. They hold TCP binding, signal handling, CLI parsing, routing and request timing.

## Findings

| source | as written | input that shows it | evidently intended | confidence | as-written member | corrected member |
|---|---|---|---|---|---|---|
| src/entities/mortgage.rs:114-124 | the live `rate_calc` calls `unwrap()` on salary, then military, then base; a flag missing from the request is `None` and the unwrap panics before a later `true` flag is seen | program `{"military": true}` (salary and base absent), cost 100, down payment 30, 12 months: it passes both checks, then panics on `salary.unwrap()` | absent flags count as `false`, as in the program check and in the legacy `rate_calc`; `LoanProgramEmpty` when no program is selected | high; not executed | Handler.MilitaryOnlyRequestPanics | Handler.CorrectedPipelineOutcomes |
