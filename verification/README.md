# go-stddev: a Dafny model of the mean endpoint

The service answers `GET /random/mean?requests=N&length=L`: it asks the
random.org API for N sets of L random integers (one concurrent call per set),
and answers with a JSON array of N + 1 calculation results, each holding a
data set and its population standard deviation; the last entry describes all
sets appended together.

The model has three modules and a small helper module:

- `Calculations` (calculations.go): the integer `sum` loop, `calculateMean`,
  and `calculateStdDev` over Dafny `real`, without the final square root.
  `CalculateVariance` returns `None` where Go computes NaN (an empty set).
- `Fanout` (main.go, `retrieveRandomNumbersSets`): the fan-out seen
  sequentially. The outcome of each upstream call is a parameter; the method
  fills an array of slots by index and returns it only if every call succeeded.
- `Handler` (main.go, `meanHandler`): the first-failure-wins validation chain,
  the 400 and 500 answers, the assembly of the N + 1 results, and the answer
  aborted when a NaN standard deviation makes the JSON encoding fail. A query that
  could not be decoded is `None`; `fetch(i)` is what upstream call i returns.
  The `variance` field of a result is the square of the source's `StdDev`.
- `Types`: `Option` and `Result`.

The aggregate set is appended in slot order, the order in which the loop at
main.go:73 ranges over the collection, not the order in which the calls
complete. The decode failure ("Bad request", main.go:39-43) is checked before
any range check.

## Model

| member | source | states |
|---|---|---|
| Calculations.Sum | calculations.go:18-25 | the loop's accumulator is the sum of the prefix seen so far; the result is the sum of all values, and 0 for an empty slice |
| Calculations.SumOfAppend | calculations.go:18-25 | the sum of two slices appended is the sum of their sums |
| Calculations.SumOfConstant | calculations.go:18-25 | n copies of c sum to n * c |
| Calculations.Mean | calculations.go:27-29 | the mean times the item count gives back the sum |
| Calculations.CalculateVariance | calculations.go:5-16 | no value (NaN) exactly for an empty slice; otherwise the squared deviations from the mean accumulated by the loop, divided by the item count |
| Calculations.SquaredDeviationsNonNegative | calculations.go:10-13 | the accumulated squared deviations are never negative |
| Calculations.SquaredDeviationsZero | calculations.go:10-13 | the accumulated squared deviations are zero if and only if every value equals the mean |
| Calculations.VarianceNonNegative | calculations.go:10-15 | the variance, hence the standard deviation, is never negative |
| Calculations.VarianceZeroIffConstant | calculations.go:5-15 | the variance is zero if and only if all values are equal |
| Calculations.VarianceOfOneToFive | calculations.go:15 | normalisation is by n: [1,2,3,4,5] has variance 2 (n - 1 would give 2.5) |
| Fanout.Collected | main.go:98-118 | a collection exists exactly when every call succeeded; it then has one slot per call and slot i holds the data of call i |
| Fanout.RetrieveRandomNumbersSets | main.go:87-118 | success exactly when every call succeeded, returning the index-preserving collection; otherwise the error text of one failed call and no collection |
| Handler.Validate | main.go:45-63 | no error exactly when 1 <= length <= 10000 and 1 <= requests <= 100; each message is chosen exactly when its check is the first to fail, length checks before requests checks |
| Handler.LengthCheckedFirst | main.go:45-53 | an invalid length is reported whatever the requests value is |
| Handler.ValidationExamples | main.go:45-58 | requests=0&length=0 and requests=5&length=0 report the length message; requests=0&length=5 the requests message |
| Handler.ConcatSplit | main.go:73-75 | the aggregate of all slots is the aggregate of slots 0..k-1 followed by that of slots k.. |
| Handler.ConcatSlot | main.go:73-75 | value j of slot i sits in the aggregate right after all values of slots 0..i-1 |
| Handler.ConcatLength | main.go:71-77 | the aggregate's length is the sum of the set lengths |
| Handler.ConcatEmpty | main.go:71-77 | the aggregate is empty exactly when every set is empty |
| Handler.ConcatUniformLength | main.go:71-77 | N sets of L values give an aggregate of N * L values |
| Handler.BuildResults | main.go:71-77 | exactly one entry per set plus one; entry i describes set i; the last entry describes all sets appended in slot order |
| Handler.MeanHandler | main.go:36-84 | decode failure gives 400 "Bad request"; a failed range check gives 400 and its message; the upstream calls are made only when all checks pass; a 500 with the fixed prefix followed by a failed call's error exactly when some call failed; when every call succeeded but some set is empty, the NaN standard deviation makes the JSON encoding fail and the answer is aborted; otherwise requests + 1 results, entry i for call i's data and the last for all data in slot order |

## Left out

- randomApi.go is not part of this model: the JSON-RPC payload, the HTTP POST with its 30-second timeout, the credential read from the environment and the decoding of the answer are network I/O. Each call's outcome is a parameter (`fetch`, or the `outcomes` sequence).
- Goroutines, the wait group, the error channel and cancellation in `retrieveRandomNumbersSets`: only the sequential, all-or-nothing, index-preserving outcome is modelled. A second failing call blocking forever on the unbuffered channel is not modelled.
- Fanout.RetrieveRandomNumbersSets: which error is returned when several calls fail depends on goroutine scheduling in Go; the contract promises only that it is the error of some failed call (the sequential model keeps the lowest index).
- Calculations.CalculateVariance: stops before `math.Sqrt`; results are the square of the reported standard deviation, over exact reals instead of `float64` (no rounding, no `math.Pow`).
- Calculations.Sum: the accumulator is an unbounded integer; Go's 64-bit `int` could only wrap for sums beyond 2^63, which the endpoint's bounds and the upstream range [1, 1000] cannot reach.
- Calculations.Mean: requires a non-zero count. Go calls calculateMean(0, 0) for an empty set, gets NaN and carries it through to the result; the model's CalculateVariance returns None before calling Mean.
- HTTP routing, server start-up, the query-string decoding library (its outcome is the `query` option), and the bytes of the JSON answer. The Content-Type header is set after `WriteHeader` in the source, so it is never sent; headers are not modelled.
- Handler.MeanHandler: the panic on a failed JSON encoding (main.go:82-83) is modelled only as the `EncodingAborted` answer, which the model gives exactly when an entry's standard deviation is NaN (an empty set from upstream); what the client then observes (a 200 status line already written, a dropped connection) is not modelled.
