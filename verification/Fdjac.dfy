/** fdjac1 and fdjac2: forward-difference Jacobians, dense and banded. */
module Fdjac {
  import opened Reals
  import opened Vectors
  import opened Machines
  import opened Arrays
  import opened Users

  /** The square root of the relative error assumed of the function. */
  function Eps(mach: Machine, epsfcn: real): (eps: real)
    requires mach.Valid()
    ensures eps > 0.0
  {
    var e := Max(epsfcn, mach.epsmch);
    SquareSign(mach.sqrt(e), e);
    mach.sqrt(e)
  }

  /** The increment for a component of value t. */
  function Increment(eps: real, t: real): (h: real)
    requires eps > 0.0
    ensures h > 0.0
  {
    var h := eps * Abs(t);
    NonnegProduct(eps, Abs(t), h);
    if h == 0.0 then eps else h
  }

  /** The increments for all components of x. */
  function Increments(eps: real, x: Vec): (h: Vec)
    requires eps > 0.0
    ensures Steps(h, |x|) && forall i :: 0 <= i < |x| ==> h[i] == Increment(eps, x[i])
  {
    seq(|x|, i requires 0 <= i < |x| && eps > 0.0 => Increment(eps, x[i]))
  }

  ghost predicate Steps(h: Vec, n: nat) {
    |h| == n && forall i :: 0 <= i < n ==> h[i] != 0.0
  }

  function Quotients(y: Vec, fvec: Vec, h: real): (c: Vec)
    requires |y| == |fvec| && h != 0.0
    ensures |c| == |y| && forall i :: 0 <= i < |y| ==> c[i] == (y[i] - fvec[i]) / h
  {
    seq(|y|, i requires 0 <= i < |y| && |y| == |fvec| && h != 0.0 => (y[i] - fvec[i]) / h)
  }

  /** Column j by differences: one call with only component j moved. */
  function DenseColumn(fcn: Fcn, x: Vec, fvec: Vec, h: Vec, j: nat): (c: Vec)
    requires fcn.Valid() && |x| == fcn.n && |fvec| == fcn.m && Steps(h, |x|) && j < |x|
    ensures |c| == |fvec|
  {
    Quotients(fcn.f(x[j := x[j] + h[j]]), fvec, h[j])
  }

  /** One call at x with component j moved by h, x restored afterwards unless the user stops. */
  method DifferenceColumn(fcn: Fcn, x: array<real>, fvec: Vec, fjac: array2<real>, eps: real, j: nat, wa: array<real>,
                          calls: nat, ghost h: Vec)
    returns (iflag: int, ghost p: Vec)
    requires fcn.Valid() && x.Length == fcn.n == fjac.Length1 && |fvec| == fcn.m == fjac.Length0 == wa.Length
    requires x != wa && eps > 0.0 && j < x.Length && h == Increments(eps, x[..])
    modifies x, fjac, wa
    ensures iflag == fcn.flag(calls, p)
    ensures iflag >= 0 ==> x[..] == old(x[..])
    ensures iflag >= 0 ==> ColsOf(fjac) == old(ColsOf(fjac))[j := DenseColumn(fcn, old(x[..]), fvec, h, j)]
  {
    var temp := x[j];
    var hj := Increment(eps, temp);
    x[j] := temp + hj;
    assert x[..] == old(x[..])[j := temp + hj];
    p := x[..];
    iflag := Call(fcn, x[..], wa, calls);
    if iflag < 0 {
      return;
    }
    x[j] := temp;
    StoreQuotients(wa[..], fvec, fjac, hj, j);
  }

  method StoreQuotients(y: Vec, fvec: Vec, fjac: array2<real>, h: real, j: nat)
    requires |y| == |fvec| == fjac.Length0 && j < fjac.Length1 && h != 0.0
    modifies fjac
    ensures ColsOf(fjac) == old(ColsOf(fjac))[j := Quotients(y, fvec, h)]
  {
    for i := 0 to |fvec|
      invariant forall k :: 0 <= k < i ==> fjac[k, j] == Quotients(y, fvec, h)[k]
      invariant forall k, c :: 0 <= k < |fvec| && 0 <= c < fjac.Length1 && c != j ==> fjac[k, c] == old(fjac[k, c])
    {
      fjac[i, j] := (y[i] - fvec[i]) / h;
    }
    assert ColOf(fjac, j) == Quotients(y, fvec, h);
    forall c | 0 <= c < fjac.Length1 && c != j
      ensures ColOf(fjac, c) == old(ColOf(fjac, c))
    {
    }
  }

  /** The dense Jacobian, column by column: n calls. fdjac2 is this loop, and so is fdjac1 when the band is full. */
  method DenseJacobian(fcn: Fcn, x: array<real>, fvec: Vec, fjac: array2<real>, eps: real, wa: array<real>, calls: nat)
    returns (iflag: int, made: nat, ghost p: Vec)
    requires fcn.Valid() && x.Length == fcn.n == fjac.Length1 && |fvec| == fcn.m == fjac.Length0 == wa.Length
    requires x != wa && eps > 0.0
    modifies x, fjac, wa
    ensures iflag <= 0 && made <= fcn.n
    ensures iflag < 0 ==> made > 0 && iflag == fcn.flag(calls + made - 1, p)
    ensures iflag == 0 ==> made == fcn.n && x[..] == old(x[..])
    ensures iflag == 0 ==> forall j :: 0 <= j < fcn.n ==>
              ColsOf(fjac)[j] == DenseColumn(fcn, old(x[..]), fvec, Increments(eps, old(x[..])), j)
  {
    ghost var h := Increments(eps, x[..]);
    made, p := 0, [];
    for j := 0 to fcn.n
      invariant made == j && x[..] == old(x[..])
      invariant forall k :: 0 <= k < j ==> ColsOf(fjac)[k] == DenseColumn(fcn, old(x[..]), fvec, h, k)
    {
      iflag, p := DifferenceColumn(fcn, x, fvec, fjac, eps, j, wa, calls + made, h);
      made := made + 1;
      if iflag < 0 {
        return;
      }
    }
    iflag := 0;
  }

  // ---- the banded case ----

  /** The group of component j: its index modulo the width of the band. */
  function Group(j: nat, width: nat): (k: nat)
    requires width > 0
    ensures k < width
  {
    if j < width then j else Group(j - width, width)
  }

  /** Members of one group are at least a width apart. */
  lemma {:induction false} GroupApart(i: nat, j: nat, width: nat)
    requires width > 0 && i < j < i + width
    ensures Group(i, width) != Group(j, width)
    decreases i
  {
    if i >= width {
      GroupApart(i - width, j - width, width);
    } else if j >= width {
      assert Group(j, width) == j - width;
    }
  }

  lemma {:induction false} GroupDivides(j: nat, width: nat) returns (q: nat)
    requires width > 0
    ensures j == q * width + Group(j, width)
  {
    q := 0;
    if j >= width {
      q := GroupDivides(j - width, width);
      assert (q + 1) * width == q * width + width;
      q := q + 1;
    }
  }

  lemma GroupIsRemainder(j: nat, width: nat)
    requires width > 0
    ensures Group(j, width) == j % width
  {
    hide Group;
    var q := GroupDivides(j, width);
    var r := Group(j, width) - j % width;
    MultipleOutside(j / width - q, width, r);
    MultipleOutside(q - j / width, width, -r);
  }

  /** A positive multiple is not below one. */
  lemma MultipleOutside(q: int, width: nat, r: int)
    requires q * width == r
    ensures q >= 1 ==> r >= width
  {
    if q >= 1 {
      assert (q - 1) * width >= 0;
    }
  }

  /** x with every component of group k moved. */
  function GroupPoint(x: Vec, h: Vec, k: nat, width: nat): (y: Vec)
    requires |h| == |x| && width > 0
    ensures |y| == |x|
    ensures forall i :: 0 <= i < |x| ==> y[i] == if Group(i, width) == k then x[i] + h[i] else x[i]
  {
    seq(|x|, i requires 0 <= i < |x| && |h| == |x| && width > 0 => if Group(i, width) == k then x[i] + h[i] else x[i])
  }

  predicate InBand(i: int, j: int, ml: nat, mu: nat) {
    j - mu <= i <= j + ml
  }

  /** Column j from the values y at its group's point: quotients inside the band, zeros outside. */
  function BandQuotients(y: Vec, fvec: Vec, h: real, j: nat, ml: nat, mu: nat): (c: Vec)
    requires |y| == |fvec| && h != 0.0
    ensures |c| == |y|
    ensures forall i :: 0 <= i < |y| ==> c[i] == if InBand(i, j, ml, mu) then (y[i] - fvec[i]) / h else 0.0
  {
    seq(|y|, i requires 0 <= i < |y| && |y| == |fvec| && h != 0.0 =>
      if InBand(i, j, ml, mu) then (y[i] - fvec[i]) / h else 0.0)
  }

  function BandColumn(fcn: Fcn, x: Vec, fvec: Vec, h: Vec, ml: nat, mu: nat, j: nat): (c: Vec)
    requires fcn.Valid() && |x| == fcn.n && |fvec| == fcn.m && Steps(h, |x|) && j < |x|
    ensures |c| == |fvec|
  {
    var width := ml + mu + 1;
    BandQuotients(fcn.f(GroupPoint(x, h, Group(j, width), width)), fvec, h[j], j, ml, mu)
  }

  /** Component i of the function depends only on the components of x inside its band. */
  ghost predicate BandedFunction(fcn: Fcn, ml: nat, mu: nat)
    requires fcn.Valid()
  {
    forall x: Vec, y: Vec, i {:trigger AgreeAround(x, y, i, ml, mu)} ::
      |x| == |y| == fcn.n && 0 <= i < fcn.m && AgreeAround(x, y, i, ml, mu) ==> fcn.f(x)[i] == fcn.f(y)[i]
  }

  ghost predicate AgreeAround(x: Vec, y: Vec, i: int, ml: nat, mu: nat)
    requires |x| == |y|
  {
    forall j :: 0 <= j < |x| && InBand(i, j, ml, mu) ==> x[j] == y[j]
  }

  /** For a function with the stated band, msum grouped calls give exactly the dense Jacobian. */
  lemma BandedIsDense(fcn: Fcn, x: Vec, fvec: Vec, h: Vec, ml: nat, mu: nat, j: nat)
    requires fcn.Valid() && BandedFunction(fcn, ml, mu) && |x| == fcn.n && Steps(h, |x|) && j < |x|
    requires fvec == fcn.f(x)
    ensures BandColumn(fcn, x, fvec, h, ml, mu, j) == DenseColumn(fcn, x, fvec, h, j)
  {
    var width := ml + mu + 1;
    var p, q := GroupPoint(x, h, Group(j, width), width), x[j := x[j] + h[j]];
    forall i | 0 <= i < fcn.m
      ensures InBand(i, j, ml, mu) ==> fcn.f(p)[i] == fcn.f(q)[i]
      ensures !InBand(i, j, ml, mu) ==> fcn.f(q)[i] == fcn.f(x)[i]
    {
      if InBand(i, j, ml, mu) {
        AgreeInBand(x, h, ml, mu, i, j, p, q);
        SameComponent(fcn, ml, mu, p, q, i);
      } else {
        SameComponent(fcn, ml, mu, q, x, i);
      }
    }
    QuotientsAgree(fcn.f(p), fcn.f(q), fvec, h[j], j, ml, mu);
  }

  lemma SameComponent(fcn: Fcn, ml: nat, mu: nat, x: Vec, y: Vec, i: nat)
    requires fcn.Valid() && BandedFunction(fcn, ml, mu) && |x| == |y| == fcn.n && i < fcn.m
    requires forall j :: 0 <= j < fcn.n && InBand(i, j, ml, mu) ==> x[j] == y[j]
    ensures fcn.f(x)[i] == fcn.f(y)[i]
  {
    assert AgreeAround(x, y, i, ml, mu);
  }

  lemma QuotientsAgree(y: Vec, z: Vec, fvec: Vec, h: real, j: nat, ml: nat, mu: nat)
    requires |y| == |z| == |fvec| && h != 0.0
    requires forall i :: 0 <= i < |y| && InBand(i, j, ml, mu) ==> y[i] == z[i]
    requires forall i :: 0 <= i < |y| && !InBand(i, j, ml, mu) ==> z[i] == fvec[i]
    ensures BandQuotients(y, fvec, h, j, ml, mu) == Quotients(z, fvec, h)
  {
  }

  /** Inside the band of row i the group point of column j moves only component j. */
  lemma AgreeInBand(x: Vec, h: Vec, ml: nat, mu: nat, i: int, j: nat, p: Vec, q: Vec)
    requires |h| == |x| && j < |x| && InBand(i, j, ml, mu)
    requires p == GroupPoint(x, h, Group(j, ml + mu + 1), ml + mu + 1) && q == x[j := x[j] + h[j]]
    ensures forall l :: 0 <= l < |x| && InBand(i, l, ml, mu) ==> p[l] == q[l]
  {
    forall l | 0 <= l < |x| && InBand(i, l, ml, mu)
      ensures p[l] == q[l]
    {
      if l < j {
        GroupApart(l, j, ml + mu + 1);
      } else if j < l {
        GroupApart(j, l, ml + mu + 1);
      }
    }
  }

  /** Moves every component of group k, keeping the old values in wa2. */
  method MoveGroup(x: array<real>, wa2: array<real>, eps: real, k: nat, width: nat, ghost h: Vec)
    requires x.Length == wa2.Length && x != wa2 && eps > 0.0 && k < width && h == Increments(eps, x[..])
    modifies x, wa2
    ensures x[..] == GroupPoint(old(x[..]), h, k, width)
    ensures forall i :: 0 <= i < x.Length && Group(i, width) == k ==> wa2[i] == old(x[i])
  {
    hide Increments, Increment;
    var n := x.Length;
    ghost var y := GroupPoint(x[..], h, k, width);
    var j := k;
    while j < n
      invariant Group(j, width) == k && j >= k
      invariant forall i :: 0 <= i < j && i < n ==> x[i] == y[i]
      invariant forall i :: j <= i < n ==> x[i] == old(x[i])
      invariant forall i :: 0 <= i < j && i < n && Group(i, width) == k ==> wa2[i] == old(x[i])
    {
      MoveOne(x, wa2, eps, j);
      NoneBetween(j, width);
      j := j + width;
    }
  }

  method MoveOne(x: array<real>, wa2: array<real>, eps: real, j: nat)
    requires x.Length == wa2.Length && x != wa2 && eps > 0.0 && j < x.Length
    modifies x, wa2
    ensures x[..] == old(x[..])[j := old(x[j]) + Increments(eps, old(x[..]))[j]]
    ensures wa2[..] == old(wa2[..])[j := old(x[j])]
  {
    wa2[j] := x[j];
    x[j] := wa2[j] + Increment(eps, wa2[j]);
  }

  lemma NoneBetween(j: nat, width: nat)
    requires width > 0
    ensures forall i :: j < i < j + width ==> Group(i, width) != Group(j, width)
    ensures Group(j + width, width) == Group(j, width)
  {
    forall i | j < i < j + width
      ensures Group(i, width) != Group(j, width)
    {
      GroupApart(j, i, width);
    }
  }

  /** Stores one column of the band and zeros outside it. */
  method StoreBand(y: Vec, fvec: Vec, fjac: array2<real>, h: real, j: nat, ml: nat, mu: nat)
    requires |y| == |fvec| == fjac.Length0 && j < fjac.Length1 && h != 0.0
    modifies fjac
    ensures ColsOf(fjac) == old(ColsOf(fjac))[j := BandQuotients(y, fvec, h, j, ml, mu)]
  {
    for i := 0 to |fvec|
      invariant forall k :: 0 <= k < i ==> fjac[k, j] == BandQuotients(y, fvec, h, j, ml, mu)[k]
      invariant forall k, c :: 0 <= k < |fvec| && 0 <= c < fjac.Length1 && c != j ==> fjac[k, c] == old(fjac[k, c])
    {
      fjac[i, j] := 0.0;
      if InBand(i, j, ml, mu) {
        fjac[i, j] := (y[i] - fvec[i]) / h;
      }
    }
    assert ColOf(fjac, j) == BandQuotients(y, fvec, h, j, ml, mu);
    forall c | 0 <= c < fjac.Length1 && c != j
      ensures ColOf(fjac, c) == old(ColOf(fjac, c))
    {
    }
  }

  /** The columns of group k, stored by the loop up to index j. */
  ghost predicate GroupStored(cols: Mat, before: Mat, y: Vec, fvec: Vec, h: Vec, k: nat, ml: nat, mu: nat, j: nat)
    requires |y| == |fvec| && Steps(h, |before|)
  {
    && |cols| == |before|
    && forall c :: 0 <= c < |cols| ==>
         cols[c] == if c < j && Group(c, ml + mu + 1) == k then BandQuotients(y, fvec, h[c], c, ml, mu) else before[c]
  }

  /** Puts component j back and stores its column. */
  method StoreMember(x: array<real>, y: Vec, fvec: Vec, fjac: array2<real>, wa2: array<real>, eps: real, j: nat,
                     ml: nat, mu: nat, ghost x0: Vec)
    requires x.Length == wa2.Length == fjac.Length1 == |x0| && x != wa2 && eps > 0.0 && j < x.Length
    requires |y| == |fvec| == fjac.Length0 && wa2[j] == x0[j]
    modifies x, fjac
    ensures x[..] == old(x[..])[j := x0[j]]
    ensures ColsOf(fjac) == old(ColsOf(fjac))[j := BandQuotients(y, fvec, Increments(eps, x0)[j], j, ml, mu)]
  {
    x[j] := wa2[j];
    StoreBand(y, fvec, fjac, Increment(eps, wa2[j]), j, ml, mu);
  }

  /** x with the members of group k below j put back. */
  ghost predicate PutBack(x: Vec, x0: Vec, h: Vec, k: nat, width: nat, j: nat) {
    && |x| == |x0| == |h| && width > 0
    && forall i :: 0 <= i < |x| ==> x[i] == if i < j then x0[i] else GroupPoint(x0, h, k, width)[i]
  }

  /** The next member of group k. */
  method StoreNext(x: array<real>, y: Vec, fvec: Vec, fjac: array2<real>, wa2: array<real>, eps: real, j: nat, ml: nat,
                   mu: nat, ghost x0: Vec, ghost h: Vec, ghost before: Mat, ghost k: nat)
    returns (j': nat)
    requires x.Length == wa2.Length == fjac.Length1 == |x0| && x != wa2 && eps > 0.0 && j < x.Length
    requires h == Increments(eps, x0)
    requires |y| == |fvec| == fjac.Length0 && wa2[j] == x0[j] && Group(j, ml + mu + 1) == k && |before| == |x0|
    requires PutBack(x[..], x0, h, k, ml + mu + 1, j) && GroupStored(ColsOf(fjac), before, y, fvec, h, k, ml, mu, j)
    modifies x, fjac
    ensures j' == j + ml + mu + 1 && Group(j', ml + mu + 1) == k
    ensures PutBack(x[..], x0, h, k, ml + mu + 1, j') && GroupStored(ColsOf(fjac), before, y, fvec, h, k, ml, mu, j')
  {
    hide Increments, Group, GroupStored, ColsOf, GroupPoint, BandQuotients, IsMat, ColOf, InBand;
    ghost var cols := ColsOf(fjac);
    StoreMember(x, y, fvec, fjac, wa2, eps, j, ml, mu, x0);
    GroupStoredStep(cols, before, y, fvec, h, k, ml, mu, j);
    NoneBetween(j, ml + mu + 1);
    j' := j + (ml + mu + 1);
  }

  /** Puts group k back and stores its columns. */
  method StoreGroup(x: array<real>, y: Vec, fvec: Vec, fjac: array2<real>, wa2: array<real>, eps: real, k: nat, ml: nat,
                    mu: nat, ghost x0: Vec, ghost h: Vec)
    requires x.Length == wa2.Length == fjac.Length1 == |x0| && x != wa2 && eps > 0.0 && k < ml + mu + 1
    requires |y| == |fvec| == fjac.Length0 && h == Increments(eps, x0)
    requires x[..] == GroupPoint(x0, h, k, ml + mu + 1)
    requires forall i :: 0 <= i < x.Length && Group(i, ml + mu + 1) == k ==> wa2[i] == x0[i]
    modifies x, fjac
    ensures x[..] == x0
    ensures GroupStored(ColsOf(fjac), old(ColsOf(fjac)), y, fvec, h, k, ml, mu, x.Length)
  {
    var n := x.Length;
    ghost var before := ColsOf(fjac);
    var j := k;
    while j < n
      invariant Group(j, ml + mu + 1) == k && PutBack(x[..], x0, h, k, ml + mu + 1, j)
      invariant GroupStored(ColsOf(fjac), before, y, fvec, h, k, ml, mu, j)
    {
      j := StoreNext(x, y, fvec, fjac, wa2, eps, j, ml, mu, x0, h, before, k);
    }
  }

  lemma GroupStoredStep(cols: Mat, before: Mat, y: Vec, fvec: Vec, h: Vec, k: nat, ml: nat, mu: nat, j: nat)
    requires |y| == |fvec| && Steps(h, |before|) && j < |before| && Group(j, ml + mu + 1) == k
    requires GroupStored(cols, before, y, fvec, h, k, ml, mu, j)
    ensures GroupStored(cols[j := BandQuotients(y, fvec, h[j], j, ml, mu)], before, y, fvec, h, k, ml, mu,
                        j + (ml + mu + 1))
  {
    NoneBetween(j, ml + mu + 1);
  }

  /** The banded Jacobian: one call for each of the ml + mu + 1 groups. */
  method BandedJacobian(fcn: Fcn, x: array<real>, fvec: Vec, fjac: array2<real>, ml: nat, mu: nat, eps: real,
                        wa1: array<real>, wa2: array<real>, calls: nat)
    returns (iflag: int, made: nat, ghost p: Vec)
    requires fcn.Valid() && x.Length == fcn.n == fjac.Length1 == wa2.Length
    requires |fvec| == fcn.m == fjac.Length0 == wa1.Length
    requires x != wa1 && x != wa2 && wa1 != wa2 && eps > 0.0
    modifies x, fjac, wa1, wa2
    ensures iflag <= 0 && made <= ml + mu + 1
    ensures iflag < 0 ==> made > 0 && iflag == fcn.flag(calls + made - 1, p)
    ensures iflag == 0 ==> made == ml + mu + 1 && x[..] == old(x[..])
    ensures iflag == 0 ==> forall j :: 0 <= j < fcn.n ==>
              ColsOf(fjac)[j] == BandColumn(fcn, old(x[..]), fvec, Increments(eps, old(x[..])), ml, mu, j)
  {
    var width := ml + mu + 1;
    ghost var x0 := x[..];
    ghost var h := Increments(eps, x0);
    made, p := 0, [];
    for k := 0 to width
      invariant made == k && x[..] == x0
      invariant forall j :: 0 <= j < fcn.n && Group(j, width) < k ==>
                ColsOf(fjac)[j] == BandColumn(fcn, x0, fvec, h, ml, mu, j)
    {
      MoveGroup(x, wa2, eps, k, width, h);
      p := x[..];
      iflag := Call(fcn, x[..], wa1, calls + made);
      made := made + 1;
      if iflag < 0 {
        return;
      }
      StoreGroup(x, wa1[..], fvec, fjac, wa2, eps, k, ml, mu, x0, h);
    }
    iflag := 0;
  }

  /** The column fdjac1 leaves: dense when the band is full, banded otherwise. */
  function JacobianColumn(fcn: Fcn, x: Vec, fvec: Vec, h: Vec, ml: nat, mu: nat, j: nat): (c: Vec)
    requires fcn.Valid() && |x| == fcn.n && |fvec| == fcn.m && Steps(h, |x|) && j < |x|
    ensures |c| == |fvec|
  {
    if ml + mu + 1 >= fcn.n then DenseColumn(fcn, x, fvec, h, j) else BandColumn(fcn, x, fvec, h, ml, mu, j)
  }

  /** The number of calls fdjac1 makes when it is not stopped. */
  function JacobianCalls(n: nat, ml: nat, mu: nat): (k: nat) {
    if ml + mu + 1 < n then ml + mu + 1 else n
  }

  /** The columns fdjac1 leaves for a function with value F(x) at x. */
  function BandJacobian(mach: Machine, fcn: Fcn, x: Vec, ml: nat, mu: nat, epsfcn: real): (cols: Mat)
    requires mach.Valid() && fcn.Valid() && |x| == fcn.n
    ensures IsMat(cols, fcn.n, fcn.m)
    ensures forall j :: 0 <= j < fcn.n ==>
              cols[j] == JacobianColumn(fcn, x, fcn.f(x), Increments(Eps(mach, epsfcn), x), ml, mu, j)
  {
    seq(fcn.n, j requires 0 <= j < fcn.n == |x| && mach.Valid() && fcn.Valid() =>
      JacobianColumn(fcn, x, fcn.f(x), Increments(Eps(mach, epsfcn), x), ml, mu, j))
  }

  /** The columns of the dense difference Jacobian, one call each. */
  function DifferenceJacobian(mach: Machine, fcn: Fcn, x: Vec, epsfcn: real): (cols: Mat)
    requires mach.Valid() && fcn.Valid() && |x| == fcn.n
    ensures IsMat(cols, fcn.n, fcn.m)
    ensures forall j :: 0 <= j < fcn.n ==>
              cols[j] == DenseColumn(fcn, x, fcn.f(x), Increments(Eps(mach, epsfcn), x), j)
  {
    seq(fcn.n, j requires 0 <= j < fcn.n == |x| && mach.Valid() && fcn.Valid() =>
      DenseColumn(fcn, x, fcn.f(x), Increments(Eps(mach, epsfcn), x), j))
  }

  /** For a function with the stated band the grouped calls give the dense Jacobian. */
  lemma BandJacobianIsDense(mach: Machine, fcn: Fcn, x: Vec, ml: nat, mu: nat, epsfcn: real)
    requires mach.Valid() && fcn.Valid() && BandedFunction(fcn, ml, mu) && |x| == fcn.n
    ensures BandJacobian(mach, fcn, x, ml, mu, epsfcn) == DifferenceJacobian(mach, fcn, x, epsfcn)
  {
    var h := Increments(Eps(mach, epsfcn), x);
    forall j | 0 <= j < fcn.n
      ensures BandJacobian(mach, fcn, x, ml, mu, epsfcn)[j] == DifferenceJacobian(mach, fcn, x, epsfcn)[j]
    {
      BandedIsDense(fcn, x, fcn.f(x), h, ml, mu, j);
    }
  }

  // ---- the increments ----

  /** h moves a component of value t: it is positive, and its square is the larger of epsfcn and the precision times
      that of t, or that number itself for t = 0. */
  ghost predicate Moves(mach: Machine, epsfcn: real, t: real, h: real) {
    h > 0.0 && h * h == Max(epsfcn, mach.epsmch) * if t == 0.0 then 1.0 else t * t
  }

  /** c is the difference quotient of fcn along component j of x, at such an increment. */
  ghost predicate DividedDifference(mach: Machine, fcn: Fcn, x: Vec, epsfcn: real, j: nat, c: Vec)
    requires fcn.Valid() && |x| == fcn.n && j < |x|
  {
    |c| == fcn.m && exists h: real :: Moves(mach, epsfcn, x[j], h) && QuotientsAt(fcn, x, j, h, c)
  }

  ghost predicate QuotientsAt(fcn: Fcn, x: Vec, j: nat, h: real, c: Vec)
    requires fcn.Valid() && |x| == fcn.n && j < |x| && |c| == fcn.m
  {
    forall i :: 0 <= i < fcn.m ==> c[i] * h == fcn.f(x[j := x[j] + h])[i] - fcn.f(x)[i]
  }

  lemma EpsSquare(mach: Machine, epsfcn: real)
    requires mach.Valid()
    ensures Eps(mach, epsfcn) * Eps(mach, epsfcn) == Max(epsfcn, mach.epsmch)
  {
  }

  lemma IncrementMoves(mach: Machine, epsfcn: real, t: real)
    requires mach.Valid()
    ensures Moves(mach, epsfcn, t, Increment(Eps(mach, epsfcn), t))
  {
    hide Eps;
    EpsSquare(mach, epsfcn);
    IncrementSquare(Eps(mach, epsfcn), Max(epsfcn, mach.epsmch), t);
  }

  lemma IncrementSquare(eps: real, ee: real, t: real)
    requires eps > 0.0 && ee == eps * eps
    ensures var h := Increment(eps, t); h > 0.0 && h * h == ee * if t == 0.0 then 1.0 else t * t
  {
    var a := Abs(t);
    var p := eps * a;
    if t != 0.0 {
      PositiveProduct(eps, a, p);
      assert a * a == t * t;
      assert p * p == ee * (t * t) by {
        assert (eps * a) * (eps * a) == (eps * eps) * (a * a);
      }
    }
  }

  /** A column of the difference Jacobian is a difference quotient. */
  lemma ColumnIsQuotient(mach: Machine, fcn: Fcn, x: Vec, epsfcn: real, j: nat)
    requires mach.Valid() && fcn.Valid() && |x| == fcn.n && j < |x|
    ensures DividedDifference(mach, fcn, x, epsfcn, j, DifferenceJacobian(mach, fcn, x, epsfcn)[j])
  {
    hide Eps, Increment;
    var c, h := DifferenceJacobian(mach, fcn, x, epsfcn)[j], Increment(Eps(mach, epsfcn), x[j]);
    IncrementMoves(mach, epsfcn, x[j]);
    assert c == DenseColumn(fcn, x, fcn.f(x), Increments(Eps(mach, epsfcn), x), j);
    forall i | 0 <= i < fcn.m
      ensures c[i] * h == fcn.f(x[j := x[j] + h])[i] - fcn.f(x)[i]
    {
      DividedBack(fcn.f(x[j := x[j] + h])[i] - fcn.f(x)[i], h, c[i]);
    }
    assert QuotientsAt(fcn, x, j, h, c);
  }

  lemma ColumnsAreQuotients(mach: Machine, fcn: Fcn, x: Vec, epsfcn: real)
    requires mach.Valid() && fcn.Valid() && |x| == fcn.n
    ensures forall j :: 0 <= j < fcn.n ==>
              DividedDifference(mach, fcn, x, epsfcn, j, DifferenceJacobian(mach, fcn, x, epsfcn)[j])
  {
    hide DividedDifference;
    forall j | 0 <= j < fcn.n
      ensures DividedDifference(mach, fcn, x, epsfcn, j, DifferenceJacobian(mach, fcn, x, epsfcn)[j])
    {
      ColumnIsQuotient(mach, fcn, x, epsfcn, j);
    }
  }

  /** y is x with every component moved whose distance from j is a multiple of the width of the band. */
  ghost predicate GroupMoved(mach: Machine, epsfcn: real, x: Vec, y: Vec, width: nat, j: nat) {
    && |y| == |x| && width > 0
    && forall k :: 0 <= k < |x| ==>
         if k % width == j % width then Moves(mach, epsfcn, x[k], y[k] - x[k]) else y[k] == x[k]
  }

  /** c is column j from the values at such a point: quotients inside the band, zeros outside. */
  ghost predicate GroupedDifference(mach: Machine, fcn: Fcn, x: Vec, ml: nat, mu: nat, epsfcn: real, j: nat, c: Vec)
    requires fcn.Valid() && |x| == fcn.n && j < |x|
  {
    |c| == fcn.m && exists y: Vec :: GroupMoved(mach, epsfcn, x, y, ml + mu + 1, j) && BandedAt(fcn, x, y, ml, mu, j, c)
  }

  ghost predicate BandedAt(fcn: Fcn, x: Vec, y: Vec, ml: nat, mu: nat, j: nat, c: Vec)
    requires fcn.Valid() && |x| == |y| == fcn.n && j < |x| && |c| == fcn.m
  {
    forall i :: 0 <= i < fcn.m ==>
      if j - mu <= i <= j + ml then c[i] * (y[j] - x[j]) == fcn.f(y)[i] - fcn.f(x)[i] else c[i] == 0.0
  }

  /** A column from a grouped call, whatever the function is. */
  lemma GroupedColumn(mach: Machine, fcn: Fcn, x: Vec, ml: nat, mu: nat, epsfcn: real, j: nat)
    requires mach.Valid() && fcn.Valid() && |x| == fcn.n && j < |x| && ml + mu + 1 < fcn.n
    ensures GroupedDifference(mach, fcn, x, ml, mu, epsfcn, j, BandJacobian(mach, fcn, x, ml, mu, epsfcn)[j])
  {
    hide Eps, Increment, Group, Moves, BandJacobian, Increments, GroupPoint, BandQuotients;
    var h, width := Increments(Eps(mach, epsfcn), x), ml + mu + 1;
    var y := GroupPoint(x, h, Group(j, width), width);
    var c := BandJacobian(mach, fcn, x, ml, mu, epsfcn)[j];
    GroupIsRemainder(j, width);
    forall k | 0 <= k < |x|
      ensures if k % width == j % width then Moves(mach, epsfcn, x[k], y[k] - x[k]) else y[k] == x[k]
    {
      GroupIsRemainder(k, width);
      IncrementMoves(mach, epsfcn, x[k]);
    }
    assert c == BandColumn(fcn, x, fcn.f(x), h, ml, mu, j);
    forall i | 0 <= i < fcn.m
      ensures if j - mu <= i <= j + ml then c[i] * (y[j] - x[j]) == fcn.f(y)[i] - fcn.f(x)[i] else c[i] == 0.0
    {
      if InBand(i, j, ml, mu) {
        DividedBack(fcn.f(y)[i] - fcn.f(x)[i], h[j], c[i]);
      }
    }
    assert BandedAt(fcn, x, y, ml, mu, j, c);
  }

  lemma GroupedColumns(mach: Machine, fcn: Fcn, x: Vec, ml: nat, mu: nat, epsfcn: real)
    requires mach.Valid() && fcn.Valid() && |x| == fcn.n && ml + mu + 1 < fcn.n
    ensures forall j :: 0 <= j < fcn.n ==>
              GroupedDifference(mach, fcn, x, ml, mu, epsfcn, j, BandJacobian(mach, fcn, x, ml, mu, epsfcn)[j])
  {
    hide GroupedDifference;
    forall j | 0 <= j < fcn.n
      ensures GroupedDifference(mach, fcn, x, ml, mu, epsfcn, j, BandJacobian(mach, fcn, x, ml, mu, epsfcn)[j])
    {
      GroupedColumn(mach, fcn, x, ml, mu, epsfcn, j);
    }
  }

  /** fdjac1: the forward-difference Jacobian of a square system, by groups when its band leaves room for them. A
      function with the stated band gets its dense difference Jacobian either way. */
  method Fdjac1(mach: Machine, fcn: Fcn, x: array<real>, fvec: Vec, fjac: array2<real>, ml: nat, mu: nat, epsfcn: real,
                wa1: array<real>, wa2: array<real>, calls: nat)
    returns (iflag: int, made: nat, ghost p: Vec)
    requires mach.Valid() && fcn.Valid() && fcn.m == fcn.n
    requires x.Length == fcn.n == fjac.Length1 == fjac.Length0 == wa1.Length == wa2.Length && fvec == fcn.f(x[..])
    requires x != wa1 && x != wa2 && wa1 != wa2
    modifies x, fjac, wa1, wa2
    ensures iflag <= 0 && made <= JacobianCalls(fcn.n, ml, mu)
    ensures iflag < 0 ==> made > 0 && iflag == fcn.flag(calls + made - 1, p)
    ensures iflag == 0 ==> made == JacobianCalls(fcn.n, ml, mu) && x[..] == old(x[..])
    ensures iflag == 0 ==> ColsOf(fjac) == BandJacobian(mach, fcn, old(x[..]), ml, mu, epsfcn)
    ensures iflag == 0 && BandedFunction(fcn, ml, mu) ==>
              ColsOf(fjac) == DifferenceJacobian(mach, fcn, old(x[..]), epsfcn)
    ensures iflag == 0 && (ml + mu + 1 >= fcn.n || BandedFunction(fcn, ml, mu)) ==>
              forall j :: 0 <= j < fcn.n ==>
                DividedDifference(mach, fcn, old(x[..]), epsfcn, j, ColsOf(fjac)[j])
    ensures iflag == 0 && ml + mu + 1 < fcn.n ==>
              forall j :: 0 <= j < fcn.n ==>
                GroupedDifference(mach, fcn, old(x[..]), ml, mu, epsfcn, j, ColsOf(fjac)[j])
  {
    hide DividedDifference, BandedFunction, GroupedDifference;
    var eps := Eps(mach, epsfcn);
    if ml + mu + 1 >= fcn.n {
      iflag, made, p := DenseJacobian(fcn, x, fvec, fjac, eps, wa1, calls);
    } else {
      iflag, made, p := BandedJacobian(fcn, x, fvec, fjac, ml, mu, eps, wa1, wa2, calls);
    }
    if iflag == 0 {
      assert ColsOf(fjac) == BandJacobian(mach, fcn, old(x[..]), ml, mu, epsfcn);
      if BandedFunction(fcn, ml, mu) {
        BandJacobianIsDense(mach, fcn, old(x[..]), ml, mu, epsfcn);
      }
      ColumnsAreQuotients(mach, fcn, old(x[..]), epsfcn);
      if ml + mu + 1 >= fcn.n {
        assert ColsOf(fjac) == DifferenceJacobian(mach, fcn, old(x[..]), epsfcn);
      } else {
        GroupedColumns(mach, fcn, old(x[..]), ml, mu, epsfcn);
      }
    }
  }

  /** fdjac2: the dense forward-difference Jacobian of m functions. */
  method Fdjac2(mach: Machine, fcn: Fcn, x: array<real>, fvec: Vec, fjac: array2<real>, epsfcn: real, wa: array<real>,
                calls: nat)
    returns (iflag: int, made: nat, ghost p: Vec)
    requires mach.Valid() && fcn.Valid() && x.Length == fcn.n == fjac.Length1 && fcn.m == fjac.Length0 == wa.Length
    requires x != wa && fvec == fcn.f(x[..])
    modifies x, fjac, wa
    ensures iflag <= 0 && made <= fcn.n
    ensures iflag < 0 ==> made > 0 && iflag == fcn.flag(calls + made - 1, p)
    ensures iflag == 0 ==> made == fcn.n && x[..] == old(x[..])
    ensures iflag == 0 ==> ColsOf(fjac) == DifferenceJacobian(mach, fcn, old(x[..]), epsfcn)
    ensures iflag == 0 ==> forall j :: 0 <= j < fcn.n ==>
              DividedDifference(mach, fcn, old(x[..]), epsfcn, j, ColsOf(fjac)[j])
  {
    hide DividedDifference;
    iflag, made, p := DenseJacobian(fcn, x, fvec, fjac, Eps(mach, epsfcn), wa, calls);
    if iflag == 0 {
      ColumnsAreQuotients(mach, fcn, old(x[..]), epsfcn);
      assert ColsOf(fjac) == DifferenceJacobian(mach, fcn, old(x[..]), epsfcn);
    }
  }
}
