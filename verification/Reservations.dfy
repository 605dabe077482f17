/** A version 3 budget reservation and the owner allocations it adds up. */
module Reservations {
  import opened Flattening
  import opened Wrappers
  import opened Resources

  datatype OwnerKind = ModelRole | ProviderOperation

  datatype Allocation = Allocation(
    kind: OwnerKind, owner: string,
    attempts: int, inputTokens: int, outputTokens: int,
    wallSeconds: real, providerUnits: real,
    resources: seq<Ceiling>, cost: Option<real>, currency: Option<string>)

  datatype Reservation = Reservation(
    owners: seq<Allocation>,
    attempts: int, inputTokens: int, outputTokens: int,
    wallSeconds: real, providerUnits: real,
    resources: seq<Ceiling>, cost: Option<real>, currency: Option<string>)

  /** `identity_currency_and_resources_close`, and the field types. */
  predicate AllocationOk(a: Allocation) {
    && a.attempts > 0 && a.inputTokens >= 0 && a.outputTokens >= 0
    && a.wallSeconds >= 0.0 && a.providerUnits >= 0.0
    && (forall i :: 0 <= i < |a.resources| ==> a.resources[i].maximum >= 0.0)
    && a.cost.None? == a.currency.None?
    && (a.cost.Some? ==> a.cost.value >= 0.0)
    && (a.currency.Some? ==> |a.currency.value| == 3)
    && OneEach(a.resources)
  }

  predicate OneEach(s: seq<Ceiling>) {
    forall i, j :: 0 <= i < j < |s| ==> s[i].dimension != s[j].dimension
  }

  // ---- the sums ----

  function SumInt(owners: seq<Allocation>, of: Allocation -> int): int {
    if owners == [] then 0 else SumInt(owners[..|owners| - 1], of) + of(owners[|owners| - 1])
  }

  function SumReal(owners: seq<Allocation>, of: Allocation -> real): real {
    if owners == [] then 0.0 else SumReal(owners[..|owners| - 1], of) + of(owners[|owners| - 1])
  }

  /** A sum takes every owner once: it is nothing for no owner, the amount for one, and adds up over lists. */
  lemma {:induction false} SumIntAdds(owners: seq<Allocation>, more: seq<Allocation>, a: Allocation,
                                      of: Allocation -> int)
    ensures SumInt(owners + more, of) == SumInt(owners, of) + SumInt(more, of)
    ensures SumInt([a], of) == of(a) && SumInt([], of) == 0
    decreases |more|
  {
    if more == [] {
      assert owners + more == owners;
    } else {
      var n := |more| - 1;
      SumIntAdds(owners, more[..n], a, of);
      assert (owners + more)[..|owners| + n] == owners + more[..n];
    }
  }

  lemma {:induction false} SumRealAdds(owners: seq<Allocation>, more: seq<Allocation>, a: Allocation,
                                       of: Allocation -> real)
    ensures SumReal(owners + more, of) == SumReal(owners, of) + SumReal(more, of)
    ensures SumReal([a], of) == of(a) && SumReal([], of) == 0.0
    decreases |more|
  {
    if more == [] {
      assert owners + more == owners;
    } else {
      var n := |more| - 1;
      SumRealAdds(owners, more[..n], a, of);
      assert (owners + more)[..|owners| + n] == owners + more[..n];
    }
  }

  function CostOrZero(a: Allocation): real {
    if a.cost.Some? then a.cost.value else 0.0
  }

  function ResourcesOf(owners: seq<Allocation>): (r: seq<seq<Ceiling>>)
    ensures |r| == |owners| && forall i :: 0 <= i < |r| ==> r[i] == owners[i].resources
  {
    seq(|owners|, i requires 0 <= i < |owners| => owners[i].resources)
  }

  // ---- what a reservation has to be ----

  ghost predicate OwnersOrdered(owners: seq<Allocation>) {
    && owners != []
    && (forall i, j :: 0 <= i < j < |owners| ==> owners[i].owner != owners[j].owner)
    && (owners[0].kind.ModelRole? ==> |owners| == 1)
    && (forall i :: 1 <= i < |owners| ==> owners[i].kind.ModelRole?)
  }

  ghost predicate CurrencyCloses(r: Reservation) {
    && r.cost.None? == r.currency.None?
    && (r.currency.Some? ==> |r.currency.value| == 3)
    && (forall i :: 0 <= i < |r.owners| ==> r.owners[i].currency == r.currency)
  }

  ghost predicate AmountsClose(r: Reservation) {
    && r.attempts == SumInt(r.owners, (a: Allocation) => a.attempts)
    && r.inputTokens == SumInt(r.owners, (a: Allocation) => a.inputTokens)
    && r.outputTokens == SumInt(r.owners, (a: Allocation) => a.outputTokens)
    && r.wallSeconds == SumReal(r.owners, (a: Allocation) => a.wallSeconds)
    && r.providerUnits == SumReal(r.owners, (a: Allocation) => a.providerUnits)
    && r.cost == if r.currency.None? then None else Some(SumReal(r.owners, CostOrZero))
  }

  ghost predicate ResourcesClose(r: Reservation) {
    var all := Flatten(ResourcesOf(r.owners));
    UnitsAgree(all) && Sums(all, r.resources)
  }

  // ---- the validator ----

  method Owners(owners: seq<Allocation>) returns (ok: bool)
    ensures ok <==> OwnersOrdered(owners)
  {
    if owners == [] {
      return false;
    }
    ok := true;
    var ids := {};
    for i := 0 to |owners|
      invariant ids == set k | 0 <= k < i :: owners[k].owner
      invariant ok <==> forall j, k :: 0 <= j < k < i ==> owners[j].owner != owners[k].owner
    {
      if owners[i].owner in ids {
        ok := false;
      }
      ids := ids + {owners[i].owner};
    }
    if ok {
      ok := (owners[0].kind.ModelRole? && |owners| == 1)
            || (owners[0].kind.ProviderOperation? && forall i :: 1 <= i < |owners| ==> owners[i].kind.ModelRole?);
    }
  }

  /** `identity_owner_order_and_aggregate_close`, without the two content hashes. */
  method ValidateReservation(r: Reservation) returns (ok: bool)
    ensures ok <==> OwnersOrdered(r.owners) && CurrencyCloses(r) && AmountsClose(r) && ResourcesClose(r)
  {
    var ordered := Owners(r.owners);
    if !ordered {
      return false;
    }
    if r.cost.None? != r.currency.None? || (r.currency.Some? && |r.currency.value| != 3) {
      return false;
    }
    if exists i :: 0 <= i < |r.owners| && r.owners[i].currency != r.currency {
      return false;
    }
    if !OneEach(r.resources) {
      if ResourcesClose(r) {
        ClosedListsOnce(r);
      }
      return false;
    }
    var expected := SumAllocationResources(ResourcesOf(r.owners));
    if expected.None? {
      return false;
    }
    ghost var all := Flatten(ResourcesOf(r.owners));
    if Sums(all, r.resources) {
      SumsAreUnique(all, r.resources, expected.value);
    }
    var expectedCost := if r.currency.None? then None else Some(SumReal(r.owners, CostOrZero));
    ok := r.attempts == SumInt(r.owners, (a: Allocation) => a.attempts)
          && r.inputTokens == SumInt(r.owners, (a: Allocation) => a.inputTokens)
          && r.outputTokens == SumInt(r.owners, (a: Allocation) => a.outputTokens)
          && r.wallSeconds == SumReal(r.owners, (a: Allocation) => a.wallSeconds)
          && r.providerUnits == SumReal(r.owners, (a: Allocation) => a.providerUnits)
          && r.resources == expected.value
          && r.cost == expectedCost;
  }

  /** The separate check for repeated dimensions rejects nothing the comparison would accept. */
  lemma ClosedListsOnce(r: Reservation)
    requires ResourcesClose(r)
    ensures OneEach(r.resources)
  {
    var all := Flatten(ResourcesOf(r.owners));
    forall i, j | 0 <= i < j < |r.resources|
      ensures r.resources[i].dimension != r.resources[j].dimension
    {
      assert FirstIndex(all, r.resources[i].dimension) < FirstIndex(all, r.resources[j].dimension);
    }
  }

  // ---- conservation ----

  lemma {:induction false} TotalOfSum(a: seq<Ceiling>, b: seq<Ceiling>, d: string)
    ensures Total(a + b, d) == Total(a, d) + Total(b, d)
    ensures GrandTotal(a + b) == GrandTotal(a) + GrandTotal(b)
    ensures forall c: Ceiling :: Total([c], d) == (if c.dimension == d then c.maximum else 0.0)
                                 && GrandTotal([c]) == c.maximum
  {
    if b == [] {
      assert a + b == a;
    } else {
      var n := |b| - 1;
      TotalOfSum(a, b[..n], d);
      assert (a + b)[..|a| + n] == a + b[..n];
    }
  }

  lemma {:induction false} TotalOfFlatten(owners: seq<Allocation>, d: string)
    ensures Total(Flatten(ResourcesOf(owners)), d) == SumReal(owners, (a: Allocation) => Total(a.resources, d))
    ensures GrandTotal(Flatten(ResourcesOf(owners))) == SumReal(owners, (a: Allocation) => GrandTotal(a.resources))
  {
    if owners != [] {
      var n := |owners| - 1;
      TotalOfFlatten(owners[..n], d);
      assert ResourcesOf(owners)[..n] == ResourcesOf(owners[..n]);
      TotalOfSum(Flatten(ResourcesOf(owners[..n])), owners[n].resources, d);
    }
  }

  /** A result lists a dimension once, so its total is the listed maximum. */
  lemma {:induction false} TotalOfListed(s: seq<Ceiling>, r: seq<Ceiling>, d: string)
    requires OneEach(r) && forall i :: 0 <= i < |r| ==> r[i].maximum == Total(s, r[i].dimension)
    ensures Total(r, d) == if Mentions(r, d) then Total(s, d) else 0.0
  {
    if !Mentions(r, d) {
      TotalOfUnmentioned(r, d);
    } else {
      var n := |r| - 1;
      var i :| 0 <= i < |r| && r[i].dimension == d;
      if i < n {
        assert r[..n][i].dimension == d;
        TotalOfListed(s, r[..n], d);
      } else {
        assert !Mentions(r[..n], d) by {
          assert forall k :: 0 <= k < n ==> r[..n][k] == r[k];
        }
        TotalOfUnmentioned(r[..n], d);
      }
    }
  }

  /** What is reserved is what the owners were allocated, dimension by dimension and in all. */
  lemma ReservationConserves(r: Reservation, d: string)
    requires ResourcesClose(r)
    ensures Total(r.resources, d) == SumReal(r.owners, (a: Allocation) => Total(a.resources, d))
    ensures GrandTotal(r.resources) == SumReal(r.owners, (a: Allocation) => GrandTotal(a.resources))
    ensures OneEach(r.resources)
  {
    var all := Flatten(ResourcesOf(r.owners));
    ClosedListsOnce(r);
    TotalOfFlatten(r.owners, d);
    TotalOfListed(all, r.resources, d);
    if !Mentions(all, d) { TotalOfUnmentioned(all, d); }
    SumsConserve(all, r.resources);
  }

  /** The owners leave no freedom: two accepted reservations of the same owners are the same record. */
  lemma OwnersDetermineReservation(r: Reservation, r': Reservation)
    requires OwnersOrdered(r.owners) && CurrencyCloses(r) && AmountsClose(r) && ResourcesClose(r)
    requires OwnersOrdered(r'.owners) && CurrencyCloses(r') && AmountsClose(r') && ResourcesClose(r')
    requires r.owners == r'.owners
    ensures r == r'
  {
    SumsAreUnique(Flatten(ResourcesOf(r.owners)), r.resources, r'.resources);
    assert r.owners[0].currency == r.currency && r'.owners[0].currency == r'.currency;
  }

  /** In an accepted reservation no owner's cost is dropped by the default of zero. */
  lemma NoCostIsDropped(r: Reservation, i: nat)
    requires i < |r.owners| && CurrencyCloses(r) && AllocationOk(r.owners[i])
    ensures r.owners[i].cost.Some? <==> r.cost.Some?
  {
    assert r.owners[i].currency == r.currency;
  }
}
