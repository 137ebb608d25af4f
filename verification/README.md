# Verification of CMinpack's trust-region solvers

A Dafny model of the C code under `CMinpack/`: the nonlinear equation solvers `hybrd` and `hybrj`, the least-squares
solvers `lmder` and `lmdif`, and every routine they are built from (`dogleg`, `qrfac`, `qform`, `r1updt`, `r1mpyq`,
`fdjac1`, `fdjac2`, `lmpar`, `qrsolv`, `enorm`), with the covariance routines `covar` and `covar1`.

Arithmetic is exact: numbers are `real`. A `Machine` carries the square root (a function with nonnegative values that
square back) and the constants `epsmch`, `dwarf`, `giant`, `rdwarf`, `rgiant`, arbitrary positive numbers (`giant` at
least 2). The routines that work in place stay in place: `array` and `array2`, the packed triangle read and written by
the source's own cursors, the loops and branches of the source. The user's function is a pure function of the point
with a flag that may be negative at any call; a negative flag stops the run. `const` arguments are sequences.

How the modules stack up:

- `Reals`, `Vectors`, `Machine`, `Packed`, `Arrays`: real and vector algebra, packed storage, matrices in arrays.
- `DoglegPath`, `Dogleg`, `DoglegTheorems`, `DoglegRadius`, `DoglegZero`: `dogleg`, what it guarantees, and where it
  does not.
- `Reflectors`, `Householder`, `Qform`, `OrthogonalFactor`, `Qrfac`: the QR factorization and its orthogonal factor.
- `Rotations`, `R1mpyq`, `R1updt`, `Orthonormal`, `Broyden`: the rank-one update of a factorization, and the rotations
  it records.
- `Users`, `Fdjac`, `Scaling`, `Runs`: the user's calls, difference Jacobians, the scale and the step bound, the
  sequence of the steps of a run.
- `HybridStep`, `HybridTrace`, `HybridApproximation`, `Hybrid`, `HybridLoop`, `Hybrd`, `Hybrj`: the equation solvers. A
  run is a sequence of steps (`History`); `Trace` says that each step follows from those before it, and a solver's
  `Outcome` is a statement about the run that was made.
- `Gains`, `HybridLaws`, `HybridVerdicts`: what governs such a run, said of the function, the lengths and the gains of
  its trials alone: the reductions, when a trial point is taken, how the bound moves, exactly when the run stops, forms
  a Jacobian or updates its factors, and what the scale is.
- `HybridFindings`, `CornerSteps`, `HybridRuns`, `HybridFailures`: runs that go wrong, step by step.
- `Qrsolv`, `SingularSolve`, `Permutations`, `Levenberg`, `Newton`, `DampingSearch`, `SearchLaws`, `Lmpar`,
  `LmparPromise`: the Levenberg-Marquardt parameter. `Reached` says which tries a search comes to, and what holds of all
  of them is proved by induction over the search; `SearchLaws` says where each try lies by the tangents of 1 / |D z|.
- `LeastSquares`, `MarquardtChoice`, `ModelDecrease`, `MarquardtStep`, `MarquardtTrace`, `Marquardt`,
  `MarquardtGradient`, `MarquardtLoop`, `Lmder`, `Lmdif`: the least-squares solvers, again with their runs;
  `MarquardtLaws` and `MarquardtVerdicts` say what governs those.
- `Covar`: `covar` and `covar1`. `Enorm`: `enorm`.

`dafny verify dfyconfig.toml` checks everything.

## Model

| member | source | states |
|---|---|---|
| Dogleg.BackSubstitute | CMinpack/dogleg.c:98-128 | The reverse walk over the packed triangle solves P x = qtb for every R, P being R with each zero pivot replaced by a nonzero stand-in; no division by zero for any input. |
| Dogleg.StandInIs | CMinpack/dogleg.c:113-126 | The stand-in for a zero pivot is epsmch times the largest magnitude in its column down to the diagonal, or epsmch itself for a zero column. |
| Dogleg.Alpha | CMinpack/dogleg.c:185-205 | The closed form for alpha lies strictly between 0 and 1 and puts the point of the second leg on the boundary of the region. |
| Dogleg.Dogleg | CMinpack/dogleg.c:98-214 | The routine leaves the step of the specification `DoglegStep` in x, in every branch. |
| DoglegTheorems.StepWithinRadius | CMinpack/dogleg.c:130-214 | For nonsingular R: norm of D x at most delta, equal to delta whenever the Gauss-Newton point is rejected, and x the Gauss-Newton point otherwise. |
| DoglegTheorems.StepLength | CMinpack/dogleg.c:130-214 | For any R: the step stays in the region if and only if, on the last leg, the product of b with R gn is at most the square of b; it ends on the boundary if and only if the two are equal. |
| DoglegTheorems.StepDecreasesModel | CMinpack/dogleg.c:141-214 | For nonsingular R and qtb other than zero the residual of the linear model strictly decreases, in all branches. |
| DoglegTheorems.StepMinimizesOnDogleg | CMinpack/dogleg.c:185-214 | No point of the dogleg path inside the region has a smaller residual than the step returned. |
| DoglegTheorems.CauchyPointMinimizes | CMinpack/dogleg.c:162-178 | The point where the legs meet has the least residual along the scaled gradient. |
| DoglegTheorems.GradientNonzero | CMinpack/dogleg.c:154-160 | The scaled gradient does not vanish when R has a solution for a nonzero right side. |
| DoglegRadius.StepInRadiusExactly | CMinpack/dogleg.c:113-127 | For any R the step stays in the region if and only if, on the last leg, the contributions of the stand-in pivots to the product with b do not add up to a negative number. |
| DoglegRadius.GaussNewtonUnique | CMinpack/dogleg.c:98-128 | The pivoted system has one solution, so that condition is about R and qtb alone. |
| DoglegRadius.LastZeroStaysInside | CMinpack/dogleg.c:113-127 | A zero only in the last place of the diagonal never takes the step out of the region. |
| DoglegRadius.StepCanLeaveRadius | CMinpack/dogleg.c:64-65 | For every machine precision a singular R for which the step is longer than delta. |
| DoglegZero.StepVanishes | CMinpack/dogleg.c:130-214 | For qtb other than zero the step is zero if and only if, on the last leg, the Gauss-Newton point lies opposite the gradient at a distance q with delta^2 (sg + q)^2 = 2 sg^2 q (q + c); off the last leg its length is the smaller of delta and the Gauss-Newton length, and positive. |
| DoglegZero.DoglegCanVanish | CMinpack/dogleg.c:208-214 | For every machine precision a singular R, a nonzero qtb and a bound for which dogleg returns the zero step. |
| Qform.Qform | CMinpack/qform.c:66-111 | Column j of the result is the stored reflections, the last first, applied to unit vector j; a zero pivot is the identity. |
| OrthogonalFactor.ProductOrthogonal | CMinpack/qform.c:90-111 | When every stored vector has u'u = 2 u_k, rows and columns of the result are orthonormal. |
| Reflectors.ForwardUndoesBackward | CMinpack/qform.c:90-111 | Reflecting forwards undoes reflecting backwards, for any vector. |
| OrthogonalFactor.ForwardIsTransposeTimes | CMinpack/hybrd.c:311-327 | Reflecting a vector forwards, as the solvers do, is multiplying it by the transpose of the matrix qform accumulates backwards. |
| Householder.HouseReflects | CMinpack/qrfac.c:237-263 | The scaled column with one added to its pivot reflects the column to a multiple of a unit vector, with u'u = 2 u_k and pivot at least 1. |
| Qrfac.Qrfac | CMinpack/qrfac.c:198-280 | The result factors the original columns in the order of ipvt, a permutation; with pivoting the diagonal of the factor has nonincreasing magnitude and no entry exceeds the diagonal one of its row; acnorm holds the original column norms. |
| Rotations.EliminatorEliminates | CMinpack/r1updt.c:129-145 | The sine and cosine computed in either branch are a rotation and eliminate the entry. |
| Rotations.EliminatorUnique | CMinpack/r1updt.c:132-145 | It is the one of the two eliminating rotations whose side belonging to the larger entry is positive: the sine when the pivot is the smaller, the cosine otherwise. |
| Rotations.RecordFaithful | CMinpack/r1updt.c:136-145 | The number tau kept of a rotation gives it back if and only if its cosine is zero or above 1/giant in size. |
| Rotations.RecordReads | CMinpack/r1mpyq.c:87-93 | The number r1updt keeps of any rotation it makes reads back as that rotation, or as a quarter turn where its cosine was flushed. |
| Rotations.RecoveredIsRotation | CMinpack/r1mpyq.c:87-93 | Any number at all reads back as a rotation. |
| R1mpyq.R1mpyq | CMinpack/r1mpyq.c:79-117 | Every row of a is multiplied by one product of rotations, fixed by v and w. |
| R1updt.R1updt | CMinpack/r1updt.c:106-231 | The packed trapezoid becomes that of s + u v' times 2(n-1) rotations in the planes of the two sweeps; v and w record them, so that what is read back is each rotation, or a quarter turn where it was flushed; sing tells if the new diagonal has a zero. |
| Broyden.Secant | CMinpack/hybrd.c:525-538 | The matrix formed maps the step to the change of the function, and acts as before on every z with z'D^2 p = 0. |
| Broyden.UpdatedProduct | CMinpack/hybrd.c:540-544 | When R is retriangularized and Q multiplied by the same rotations, the new product is the old one plus the rank-one term. |
| Broyden.SecantUpdateUnique | CMinpack/hybrd.c:525-534 | The secant condition with the agreement on the orthogonal directions fixes one matrix, Broyden's B + (df - B p) p'D^2 / abs(D p)^2. |
| Broyden.FactorsHoldUpdate | CMinpack/hybrd.c:525-544 | When no rotation was flushed the updated factors are those of Broyden's update of the old product, and map the step to the change. |
| Broyden.FreshProduct | CMinpack/hybrd.c:280-349 | After a fresh factorization Q is orthogonal and Q R is the Jacobian. |
| Fdjac.BandedIsDense | CMinpack/fdjac1.c:155-183 | For a function with the stated band a column from grouped calls is the column from its own call. |
| Fdjac.BandJacobianIsDense | CMinpack/fdjac1.c:126-184 | The two forms of the Jacobian agree for a function with the stated band. |
| Fdjac.ColumnIsQuotient | CMinpack/fdjac2.c:96-115 | Column j of the dense difference Jacobian is the difference quotient at some h > 0 with h^2 = max(epsfcn, epsmch) x_j^2, or h^2 = max(epsfcn, epsmch) for x_j = 0. |
| Fdjac.GroupedColumn | CMinpack/fdjac1.c:157-183 | Whatever the function is, column j from grouped calls has, inside the band, the quotients from a point where every component at a multiple of ml+mu+1 from j is moved by such an increment, and zeros outside. |
| Fdjac.Fdjac1 | CMinpack/fdjac1.c:126-184 | Calls made (ml+mu+1 or n, and fewer only when stopped), x restored; every column left is such a difference quotient, or such a column from grouped calls when the band leaves room; for a banded function it is the dense difference Jacobian in either branch. |
| Fdjac.Fdjac2 | CMinpack/fdjac2.c:96-117 | n calls, x restored; column j is the difference quotient at some h > 0 with h^2 = max(epsfcn, epsmch) x_j^2, or max(epsfcn, epsmch) for x_j = 0; a negative flag is that of the last call made. |
| Scaling.LongerInLarger | CMinpack/hybrd.c:351-359 | Enlarging the scale never shortens D x, which keeps the xnorm a solver holds a lower bound of the scaled norm of x. |
| HybridStep.StepPredicts | CMinpack/hybrd.c:377-431 | For nonsingular R the trial step is within the bound, and where the function is not zero it is nonzero and prered is positive. |
| HybridStep.StepAdvances | CMinpack/hybrd.c:441-474 | A step keeps fnorm the norm of the function at the point; a success strictly decreases it, a failure leaves it and the point alone. |
| HybridStep.BoundPositive | CMinpack/hybrd.c:441-496 | The bound is positive whenever the run goes on. |
| HybridStep.UndefinedSingular | CMinpack/hybrd.c:525-534 | The rank-one update can divide by zero only with a singular factor and a nonzero function value. |
| HybridTrace.SlowTrials | CMinpack/hybrd.c:476-481 | nslow1 has reached v if and only if the last v trials each reduced the norm by less than a thousandth. |
| HybridTrace.SlowJacobians | CMinpack/hybrd.c:482-488 | nslow2 has reached v if and only if v Jacobians were formed over some last stretch of trials none of which gained a tenth. |
| HybridTrace.JacobiansPaid | CMinpack/hybrj.c:421-502 | At least three trials pay for every Jacobian after the first, in every run. |
| HybridTrace.CallsBounded | CMinpack/hybrd.c:398-502 | The calls of a run stay within max(maxfev, 2) and one Jacobian. |
| HybridTrace.RunDescends | CMinpack/hybrd.c:460-474 | Over a whole run the norm never grows, and is strictly smaller unless the point is still the start. |
| HybridTrace.RunReports | CMinpack/hybrd.c:490-516 | What each info code says of the run and the point reached: a zero or a bound of at most xtol times the scaled norm of x (1), the calls used up (2), bound and step below the precision of x (3), five Jacobians without a tenth gained (4), ten trials without a thousandth (5). |
| HybridTrace.StepOfRun | CMinpack/hybrd.c:266-552 | Every step of a run satisfies the step specification and is joined to those before it. |
| HybridLaws.ReductionsMeasured | CMinpack/hybrd.c:405-431 | In every run actred is the relative reduction of the square of the function and prered that of the square of f + B p, B being the matrix the factors hold; without a reduction they are -1 and 0. |
| HybridLaws.StepTaken | CMinpack/hybrd.c:433-474 | The trial point is taken if and only if a reduction was predicted and at least a ten-thousandth of it was made. |
| HybridLaws.BoundMoves | CMinpack/hybrd.c:390-458 | The bound after a trial of length l, cut to l on the first iteration: halved when less than a tenth of the predicted reduction was made; 2l when the reduction was within a tenth of it; max(delta, 2l) when at least half of it was made, or a tenth for the second time running; as it was otherwise. |
| HybridLaws.BoundKept | CMinpack/hybrd.c:288-309 | A step begins with the bound the one before left; only with a new Jacobian while no trial point has been taken it is set, to factor times the length of D x0, or factor when that is zero. |
| HybridLaws.FirstTrialLength | CMinpack/hybrd.c:305-388 | With a nonsingular factor the first trial is as long as the Gauss-Newton step or that bound, whichever is shorter. |
| HybridVerdicts.ArrivalNorm | CMinpack/hybrd.c:460-474 | The xnorm of the tests is the scaled length of the point reached, in the scale it was reached with. |
| HybridVerdicts.RuledExactly | CMinpack/hybrd.c:489-534 | The exact condition, over the run alone, for info 1, 5, 4, 3 and 2 in their order of precedence, for a new Jacobian (two failures running after a gain or the start), and for the division by a zero length; an update otherwise. |
| HybridVerdicts.ScaleFixed | CMinpack/hybrd.c:353-359 | A scale fixed by the caller never changes. |
| HybridVerdicts.ScaleCovers | CMinpack/hybrd.c:288-359 | A scale chosen by the solver is at least the norm of its column in every Jacobian formed so far ... |
| HybridVerdicts.ScaleAttained | CMinpack/hybrd.c:288-359 | ... and equal to one of them, or to 1 for a column that was zero when the scale was chosen. |
| HybridApproximation.FactorsHoldApproximation | CMinpack/hybrd.c:280-544 | In every run, while no rotation since the last Jacobian was flushed, Q R is that Jacobian with all of Broyden's updates since. |
| HybridApproximation.ApproximationMeetsSecant | CMinpack/hybrd.c:525-534 | In every run that approximation maps the last step to the observed change of the function, and agrees with the one before on every direction orthogonal to it in the scale D^2. |
| Hybrid.SplitFactors | CMinpack/hybrd.c:311-349 | The packed R, the Q accumulated in fjac and qtf: Q orthogonal, qtf = Q'f, Q R the Jacobian. |
| Hybrid.TryStep | CMinpack/hybrd.c:377-439 | The dogleg step, the function at the trial point, the model residual, and the two reductions. |
| Hybrid.RankOneUpdate | CMinpack/hybrd.c:525-544 | Q stays orthogonal and qtf = Q'f on both success and failure; the matrix formed satisfies the secant condition; R is its triangle turned by r1updt's 2(n-1) rotations, and Q the old one turned by what is read back of their records. |
| Hybrid.InnerStep | CMinpack/hybrd.c:361-549 | One pass from the head of the inner loop: a step of the specification, the verdict of the tests, and the head restored when the run goes on. What the bound and the verdict are over a run is stated by `HybridLaws.BoundMoves` and `HybridVerdicts.RuledExactly`. |
| HybridLoop.Prepare | CMinpack/hybrd.c:280-359 | A Jacobian in fjac becomes the head of the inner loop, joined to the run so far, with the scale and bound of the source (`HybridLaws.BoundKept`, `HybridVerdicts.ScaleStep`). |
| HybridLoop.Iterate | CMinpack/hybrd.c:361-549 | The inner loop ends, and its trials extend the run. |
| HybridFindings.ZeroStepExactly | CMinpack/hybrd.c:377-388 | Where the function is not zero, a trial step has length zero if and only if dogleg's directions cancel. |
| HybridFindings.FirstZeroStep | CMinpack/hybrd.c:390-394 | On the first iteration such a step makes the run report info 1 with a zero bound at the start. |
| HybridFailures.HybrjFalseSolution | CMinpack/hybrj.c:365-475 | For every machine, tolerance and call limit a linear problem and a run of hybrj that reports info 1 at a start where the function is not zero. |
| HybridFailures.HybrdFalseSolution | CMinpack/hybrd.c:385-495 | The same for hybrd, whatever its difference parameter is. |
| HybridRuns.DividesByZero | CMinpack/hybrd.c:361-549 | The run that does it, for any problem with the stated values at four points: a success that leads to an update, a failure that leads to a new Jacobian, and the zero step. |
| HybridFailures.HybrjDividesByZero | CMinpack/hybrj.c:505-513 | For every machine and tolerance, and more than four calls allowed, a problem and a run of hybrj from its start that divides by pnorm = 0. |
| HybridFailures.HybrdDividesByZero | CMinpack/hybrd.c:525-534 | The same for hybrd, for a precision and a difference parameter of at most 1 and more than ten calls. |
| HybridFindings.RecordCanLie | CMinpack/r1updt.c:136-139 | For every machine a rotation, of 4 giant^2 - 1 against 4 giant, whose record reads back as a quarter turn. |
| Hybrd.CountBounded | CMinpack/hybrd.c:244-276 | nfev is at least the number of calls and at most max(maxfev, 2) + min(ml+mu+1, n). |
| Hybrd.Hybrd | CMinpack/hybrd.c:223-562 | info is 0 exactly for improper input, written out in full, and every array is then as it was. Otherwise there is a run that ends at x with fvec = F(x), no worse than the start, and explains info: the tests of the last step, or the user's own negative flag and the call that returned it. |
| Hybrj.CountsBounded | CMinpack/hybrj.c:239-258 | nfev is at most max(maxfev, 2), and 3 (njev - 1) at most nfev. |
| Hybrj.Hybrj | CMinpack/hybrj.c:210-544 | The same for hybrj, with both counters exact. |
| Qrsolv.Qrsolv | CMinpack/qrsolv.c:99-216 | The upper triangle of r is restored; the triangle S has S'S = R'R + D^2 in the order of ipvt, with a nonzero pivot wherever D has one, and w has S'w = R'b; x solves the leading block of S z = w up to the first zero pivot, and is zero beyond it. |
| Qrsolv.SolvesExactly | CMinpack/qrsolv.c:185-208 | That z solves the least-squares problem if and only if the rows of S beyond the block take nothing from w there; always when S is nonsingular. |
| SingularSolve.LeastSquaresCanFail | CMinpack/qrsolv.c:185-208 | R = (1 0 1; 0 0 0; 0 0 0), D = diag(1, 0, 0), b = (1, 0, 0): the normal equations have a solution, and what qrsolv leaves is none, whatever signs its rotations take. |
| Levenberg.Energy | CMinpack/lmder.c:418-421 | For a damped solution the product of b with R z is the square of R z plus par times the square of D z. |
| Levenberg.DampedLength | CMinpack/lmpar.c:214-235 | par times the length of D z is at most gnorm, for every damped solution. |
| Levenberg.DampedMonotone | CMinpack/lmpar.c:313-320 | The length of D z does not grow with the damping. |
| Levenberg.DampedStrict | CMinpack/lmpar.c:313-320 | With a gradient other than zero it strictly decreases. |
| Levenberg.RootAboveLower | CMinpack/lmpar.c:186-212 | The bound behind the initial parl: every root is at or above it. |
| Newton.LowerIsBelow | CMinpack/lmpar.c:186-212 | The initial parl, as computed, is at or below every root. |
| Newton.NewtonBelowRoot | CMinpack/lmpar.c:278-326 | From any damping tried, on either side, the Newton correction does not pass a root. |
| Newton.NewtonStaysLong | CMinpack/lmpar.c:278-326 | The estimate it leads to, if positive, gives a step at least delta long, whether or not any damping gives exactly delta. |
| DampingSearch.UpperIsAbove | CMinpack/lmpar.c:231-235 | The initial paru is at or above every root, with its stand-in for a zero gradient too. |
| DampingSearch.OpeningOk | CMinpack/lmpar.c:186-247 | The bounds and the estimate the search begins with: parl at or below, paru at or above every root, and a positive parl gives a step at least delta long. |
| Lmpar.LeadingIsDamped | CMinpack/lmpar.c:133-170 | The first direction solves the undamped normal equations when the rank of R shows on its diagonal, as it does after qrfac. |
| DampingSearch.AdvanceOk | CMinpack/lmpar.c:278-326 | After an evaluation the roots lie between parl and paru, and the new estimate, if positive, is at or below every root and gives a step at least delta long; `SearchLaws.NextTouches` says which it is. |
| DampingSearch.ReachedOk | CMinpack/lmpar.c:251-330 | That holds at every try of every search, of which there are at most ten, unless the estimate stands in for zero. |
| DampingSearch.GivesUpAtDwarf | CMinpack/lmpar.c:273-279 | The search gives up without a lower bound only at par = dwarf. |
| DampingSearch.SecondTryLong | CMinpack/lmpar.c:246-330 | From the second evaluation on the step is not shorter than delta, unless the estimate stands in for zero. |
| SearchLaws.TriedTangent | CMinpack/lmpar.c:295-311 | The line through (par, 1 / length of D z) with the slope the correction uses is nowhere below 1 / length of D z as a function of the damping: it is its tangent. |
| SearchLaws.NextTouches | CMinpack/lmpar.c:253-326 | The next try is exactly where that tangent at the evaluated par reaches 1 / delta, raised to the new lower bound, with max(dwarf, paru / 1000) in place of zero; parl and paru move to par on its side of the roots. |
| SearchLaws.TooLongRises | CMinpack/lmpar.c:310-326 | After a step that is too long the damping strictly increases. |
| SearchLaws.TriesDiffer | CMinpack/lmpar.c:248-330 | Two tries in a row differ, unless both are at dwarf, without a lower bound and with a step too short. |
| SearchLaws.SearchRises | CMinpack/lmpar.c:248-330 | From the second evaluation on the dampings of a search strictly increase, unless the estimate stands in for zero. |
| SearchLaws.FollowedOpen | CMinpack/lmpar.c:270-276 | A try that is followed by another is more than a tenth off, not the tenth, and not one where, without a lower bound, a negative function has stopped growing ... |
| SearchLaws.FoundClosed | CMinpack/lmpar.c:270-276 | ... and the try a search ends with is one of these three. |
| SearchLaws.FirstTouches | CMinpack/lmpar.c:190-212 | The first lower bound of a nonsingular factor is where the tangent at zero damping reaches 1 / delta. |
| SearchLaws.FirstBoundsOrdered | CMinpack/lmpar.c:190-235 | It does not exceed the first upper bound. |
| SearchLaws.OpeningIs | CMinpack/lmpar.c:186-244 | The search begins with paru delta = gnorm > 0, parl positive exactly for a nonsingular factor, and the caller's par moved between them; par times the length of the first direction is gnorm when both are zero. |
| Lmpar.Lmpar | CMinpack/lmpar.c:133-337 | par = 0 exactly when the first direction is at most a tenth too long. Otherwise the bounds and the estimate are those of the source, the search made from them is the source's, one evaluation, correction and update after another (each try as `SearchLaws.NextTouches` says), and it ends at the first that passes one of its three tests; x solves the damped system there and S is its triangle. The upper triangle of r is kept. |
| LmparPromise.BrokenBeforeTen | CMinpack/lmpar.c:45-52 | Before ten evaluations the promised accuracy fails if and only if there is no lower bound, par = dwarf, and the step is shorter than nine tenths of delta; then no damping from dwarf on has it. |
| LmparPromise.BrokenAtTen | CMinpack/lmpar.c:45-52 | After ten it fails only with a step too long, unless the estimate stands in for zero. |
| LmparPromise.KeptWhenNonsingular | CMinpack/lmpar.c:45-52 | For nonsingular R it holds, or ten evaluations left the step too long. |
| LmparPromise.BrokenWhenShort | CMinpack/lmpar.c:45-52 | When the first direction is too long and an undamped solution shorter than nine tenths of delta, no parameter the routine returns has the promised accuracy. |
| LmparPromise.PromiseCanBreak | CMinpack/lmpar.c:45-52 | A two by two factor, right side and radius for which that happens. |
| LeastSquares.FactorRepresents | CMinpack/lmder.c:307-326 | Squares and products with f of J x are those of R P'x with qtf. |
| LeastSquares.GradientEntry | CMinpack/lmder.c:328-344 | The product of a column of J with f, from the factor. |
| MarquardtGradient.FormQtf | CMinpack/lmder.c:307-326 | transpose(Q) f in qtf, the diagonal restored, the factor standing for the Jacobian. |
| MarquardtGradient.GradientNorm | CMinpack/lmder.c:328-344 | gnorm is the largest cosine between f and a column of the Jacobian, attained by one, and zero for f = 0. |
| ModelDecrease.TrialIsExact | CMinpack/lmder.c:407-421 | prered is the exact relative decrease of the squared linear model, dirder its exact slope. |
| ModelDecrease.DirectionFound | CMinpack/lmder.c:369-381 | The step solves the damped normal equations of the Jacobian for the parameter returned, at par = 0 as well. |
| MarquardtStep.StepAdvances | CMinpack/lmder.c:431-469 | A success strictly decreases fnorm; a rejected step changes neither point nor norm and at least halves the bound. |
| MarquardtStep.BoundShrinks | CMinpack/lmder.c:433-445 | par and delta stay nonnegative, and delta at least halves when the ratio is at most a quarter; every division is defined. |
| MarquardtStep.ShrinkBy | CMinpack/lmder.c:434-441 | The factor lies between a tenth and a half. |
| MarquardtTrace.RejectionsBounded | CMinpack/lmder.c:433-506 | After r rejections in a row 2^r epsmch xnorm is still below the bound they began with, whatever maxfev is. |
| MarquardtTrace.RunDescends | CMinpack/lmder.c:453-469 | Over a whole run the norm never grows, and is strictly smaller unless the point is still the start. |
| MarquardtTrace.CallsBounded | CMinpack/lmdif.c:243-263 | The calls of a run stay within max(maxfev, 2) and one Jacobian. |
| MarquardtTrace.RunReports | CMinpack/lmder.c:471-502 | What each info code says of the last trial, the bound, the scaled norm of x and the gradient; `MarquardtVerdicts.RuledExactly` is the converse. |
| MarquardtTrace.StepOfRun | CMinpack/lmder.c:252-510 | Every step of a run satisfies the step specification and is joined to those before it. |
| MarquardtTrace.StepMeetsBound | CMinpack/lmder.c:369-385 | Every step of every run is what lmpar's search finds for the Jacobian at its point, the bound and the parameter before; its scaled length is within a tenth of the bound as far as that search allows, and where the columns are independent it is, or is undamped and not longer, unless ten evaluations left it too long. |
| MarquardtLaws.ReductionsMeasured | CMinpack/lmder.c:398-421 | In every run actred is the relative reduction of the square of the function, -1 when its norm has grown tenfold; prered is that of the square of f + J p, without the damping, and dirder its slope. |
| MarquardtLaws.StepTaken | CMinpack/lmder.c:423-469 | The trial point is taken if and only if a reduction was predicted and at least a ten-thousandth of it was made. |
| MarquardtLaws.BoundMoves | CMinpack/lmder.c:383-451 | The bound and the damping after a trial of length l: when at most a quarter of the predicted reduction was made, min(delta, 10 l) times a factor that the damping is divided by; otherwise 2l and half the damping when it was zero or three quarters were made, and both as they were if not. The factor is a tenth after a tenfold growth, a half without growth, and else the minimizer of the parabola through the two values with the slope at the first, but at least a tenth. |
| MarquardtLaws.InterpolatedMinimizes | CMinpack/lmder.c:434-438 | The quotient the source forms is the minimizer of that parabola over all reals. |
| MarquardtLaws.BoundKept | CMinpack/lmder.c:294-305 | The first step has the bound factor times the length of D x0, or factor when that is zero, and no damping; every later one the bound and the damping the one before left. |
| MarquardtVerdicts.ArrivalNorm | CMinpack/lmder.c:453-469 | The xnorm of the tests is the scaled length of the point reached, in the scale it was reached with. |
| MarquardtVerdicts.RuledExactly | CMinpack/lmder.c:471-506 | The exact condition, over the run alone, for info 3, 2, 1, 8, 7, 6 and 5 in their order of precedence, for a new Jacobian and for another trial from the same point: a run that goes on has none of the tests true. |
| MarquardtVerdicts.CosinesAtMost | CMinpack/lmder.c:346-350 | gnorm is at most a tolerance if and only if no column of the Jacobian has a larger cosine with f. |
| MarquardtVerdicts.GradientLarge | CMinpack/lmder.c:346-353 | Every step of a run was made where some column of the Jacobian has a cosine above gtol with f. |
| MarquardtVerdicts.ScaleFixed | CMinpack/lmder.c:355-363 | A scale fixed by the caller never changes. |
| MarquardtVerdicts.ScaleCovers | CMinpack/lmder.c:284-363 | A scale chosen by the solver is at least the norm of its column in every Jacobian formed so far ... |
| MarquardtVerdicts.ScaleAttained | CMinpack/lmder.c:284-363 | ... and equal to one of them, or to 1 for a column that is zero in the first. |
| MarquardtChoice.IndependentNonsingular | CMinpack/lmder.c:293-326 | The pivoted factor of a Jacobian with independent columns has no zero on its diagonal. |
| Marquardt.FindStep | CMinpack/lmder.c:369-381 | lmpar's direction for the bound and the parameter held, as a step of the Jacobian with its length, and the factor kept. |
| Marquardt.InnerStep | CMinpack/lmder.c:365-506 | One pass from the head of the inner loop, and the head restored after a rejection; fnorm is positive there. What the bound and the verdict are over a run is stated by `MarquardtLaws.BoundMoves` and `MarquardtVerdicts.RuledExactly`. |
| MarquardtLoop.Prepare | CMinpack/lmder.c:276-363 | A Jacobian in fjac becomes the head of the inner loop, with the bound of the source (`MarquardtLaws.BoundKept`), unless its gradient passes the test; a zero norm always passes. |
| MarquardtLoop.Iterate | CMinpack/lmder.c:365-506 | The inner loop ends, and its trials extend the run. |
| Lmder.Lmder | CMinpack/lmder.c:218-521 | info is 0 exactly for improper input, written out in full, and every array is then as it was. Otherwise there is a run that ends at x with fvec = F(x), no worse than the start, and explains info; nfev at most max(maxfev, 2), njev at most nfev, both exact. |
| Lmdif.CountBounded | CMinpack/lmdif.c:243-263 | nfev is at least the number of calls and at most max(maxfev, 2) + n. |
| Lmdif.Lmdif | CMinpack/lmdif.c:222-525 | The same for lmdif. |
| Covar.InvertTriangle | CMinpack/covar.c:81-100 | The rank found, and the inverse of the leading block in place of it. |
| Covar.CovarianceInverts | CMinpack/covar.c:102-120 | T T' is the inverse of R'R when T is that of R. |
| Covar.Covar | CMinpack/covar.c:79-150 | r becomes symmetric; entry (ipvt i, ipvt j) is that of the inverse of R'R for the leading block that passes the tolerance, zero beyond it. |
| Covar.CovarianceUnique | CMinpack/covar.c:16-45 | That describes one matrix. |
| Covar.Covar1 | CMinpack/covar1.c:85-164 | covar's matrix times fsumsq / (m - rank), defined if and only if m differs from the rank; the rank, as 0 when full. |
| Enorm.Enorm | CMinpack/enorm.c:101-153 | The three sums are those of the large, middle and small components, each bounded; the result is the norm if and only if no component is large or every small one is zero, and its square is otherwise low by at most n rdwarf^2. |

## Findings

Where the code does not do what it sets out to do, with the condition and an input.

- **dogleg can leave the trust region.** The bound on the step is documented without a condition (`CMinpack/dogleg.c:64-65`).
  It holds for nonsingular R. For singular R it holds if and only if the stand-in pivots do not pull against b on the
  last leg (`DoglegRadius.StepInRadiusExactly`); R = (0 2; 0 1), b = (1, 1), D = I, delta = 1 breaks it
  (`DoglegRadius.StepCanLeaveRadius`). A zero in the last place only is harmless (`DoglegRadius.LastZeroStaysInside`).
- **dogleg can return the zero step although qtb is not zero**, if and only if its two directions cancel
  (`DoglegZero.StepVanishes`, `DoglegZero.DoglegCanVanish`). In `hybrd` and `hybrj` the bound then drops to zero on the
  first iteration and the run reports convergence where the function is not zero (`HybridFailures.HybrjFalseSolution`,
  `HybridFailures.HybrdFalseSolution`); later the rank-one update divides by pnorm = 0, in a run of three steps
  (`HybridFailures.HybrjDividesByZero`, `HybridFailures.HybrdDividesByZero`). The model ends such a run with the verdict
  `Undefined`, and proves that nothing else leads there (`HybridStep.UndefinedSingular`,
  `HybridFindings.ZeroStepExactly`).
- **r1updt's record of a rotation can be wrong.** A cosine that is not zero but at most 1/giant in size is recorded as a
  quarter turn, while the rotation itself is applied to R (`Rotations.RecordFaithful`); every machine has such a
  rotation (`HybridFindings.RecordCanLie`). Q is then multiplied by other rotations than R: it stays orthogonal and qtf
  stays Q'f, but Q R is no longer the matrix that was formed. `Hybrid.RankOneUpdate` states both sides.
- **qrsolv promises a least-squares solution of a singular system and can leave another vector.** It solves the block
  before the first zero pivot and ignores the rows beyond it; that is a solution if and only if those rows take nothing
  from the right side (`Qrsolv.SolvesExactly`, `SingularSolve.LeastSquaresCanFail`). The solvers here never come to it,
  since their scale is positive.
- **lmpar's accuracy promise can be impossible to keep** for a singular factor (`LmparPromise.BrokenWhenShort`,
  `LmparPromise.PromiseCanBreak`). Its header promises a step within a tenth of the radius; comments further down admit
  two exceptions, and the model follows the code. Before ten evaluations the promise fails exactly when the search has
  come down to dwarf with a step too short, and then no damping from dwarf on keeps it
  (`LmparPromise.BrokenBeforeTen`). For a nonsingular factor only a step still too long after ten evaluations remains
  (`LmparPromise.KeptWhenNonsingular`).
- **covar1 divides by zero exactly when m equals the rank** (`Covar.Covar1`).
- **enorm forgets the small components when there are large ones**: it is the norm if and only if one of the two kinds
  is absent, zeros aside (`Enorm.Enorm`).
- `hybrd` and `lmdif` add the cost of a whole Jacobian to nfev even when the user stops in the middle of it, so nfev
  exceeds the calls made in that case only (`Hybrd.CountBounded`, `Lmdif.CountBounded`).

## Left out

- Lmpar.Lmpar: how fast the ten Newton steps converge is not stated.
- HybridTrace.CallsBounded: counts the calls of whole steps; a run cut short by the user is counted in `Hybrd.CountBounded` and `Hybrj.CountsBounded`.
- Rounding, overflow and underflow: arithmetic is exact. The solvers use the exact norm where the source calls enorm; `Enorm.Enorm` says when the two agree.
- The user's function may not depend on the calls made before; its negative flags may.
- After a negative flag inside fdjac1 or fdjac2 the components of x that were moved stay moved, as in the source; nothing more is said of x then.
- Leading dimensions: matrices are `array2`, so the tests on ldfjac and the addressing `i + j*ld` do not appear. Aliased arguments that the source allows (acnorm with rdiag, wa with rdiag in qrfac) are kept apart.
- In lmder and lmdif lmpar works in a fresh array of length n instead of wa4; the loop that accepts a step is three copies instead of two loops.
- Calls for printing (nprint > 0) and the argument that tells the user why a call is made.
- The BLAS, LAPACK and CUDA branches, the precision macros and the tables in dpmpar.
- The f2c twins (`*_.c`), which repeat the same algorithms, and the drivers `hybrd1`, `hybrj1`, `lmder1`, `lmdif1`, `lmstr1`, which only slice workspace.
- `lmstr` and `rwupdt` (lmder's loops on a factor updated by rows) and `chkder` (a heuristic on logarithms).
- Everything outside `CMinpack/`.
