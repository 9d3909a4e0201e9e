/**
 The dollar account of a run, and the check at the turn boundary that keeps a run inside its
 dollar cap.  A charge is priced at the model that made it; one that cannot be priced is remembered.
*/
module Spending {
  import opened Generate

  /** Whether a usage says anything; the provider's own cost figure does not count. */
  predicate Reported(u: Usage) {
    u.prompt != 0 || u.completion != 0 || u.total != 0 || u.cached != 0 || u.reasoning != 0
  }

  /** Only a usage without any tokens says nothing. */
  lemma SaysNothing(u: Usage)
    ensures !Reported(u) <==> u == Usage(0, 0, 0, 0, 0, u.cost)
  {
  }

  datatype Charge = Charge(model: string, usage: Usage)

  /** What a usage puts on the account. */
  function ChargeFor(model: string, u: Usage): seq<Charge> {
    if Reported(u) then [Charge(model, u)] else []
  }

  type Pricer = Charge -> Option<real>

  /** The dollars of the charges that could be priced. */
  function PricedTotal(price: Pricer, charges: seq<Charge>): real {
    if charges == [] then 0.0
    else
      PricedTotal(price, charges[..|charges| - 1]) +
      match price(charges[|charges| - 1]) { case Some(c) => c case None => 0.0 }
  }

  predicate AnyPriced(price: Pricer, charges: seq<Charge>) {
    exists c :: c in charges && price(c).Some?
  }

  predicate AllPriced(price: Pricer, charges: seq<Charge>) {
    forall c :: c in charges ==> price(c).Some?
  }

  /** Dollars, whether any charge was priced, and whether any was not. */
  predicate Accounts(price: Pricer, charges: seq<Charge>, usd: real, priced: bool, unpriced: bool) {
    && usd == PricedTotal(price, charges)
    && priced == AnyPriced(price, charges)
    && unpriced == !AllPriced(price, charges)
  }

  lemma OneMoreCharge(price: Pricer, charges: seq<Charge>, usd: real, priced: bool, unpriced: bool, c: Charge)
    requires Accounts(price, charges, usd, priced, unpriced)
    ensures match price(c)
            case Some(d) => Accounts(price, charges + [c], usd + d, true, unpriced)
            case None => Accounts(price, charges + [c], usd, priced, true)
  {
    assert (charges + [c])[..|charges|] == charges;
    assert forall x :: x in charges + [c] <==> x in charges || x == c;
  }

  class Spend {
    const price: Pricer
    var usd: real
    var priced: bool
    var unpriced: bool

    ghost var charges: seq<Charge>   // every reported usage so far

    ghost predicate Valid()
      reads this
    {
      Accounts(price, charges, usd, priced, unpriced)
    }

    constructor (price: Pricer)
      ensures Valid() && charges == [] && this.price == price
    {
      this.price := price;
      usd, priced, unpriced, charges := 0.0, false, false, [];
    }

    method Add(model: string, u: Usage)
      requires Valid()
      modifies this
      ensures Valid() && charges == old(charges) + if Reported(u) then [Charge(model, u)] else []
    {
      if !Reported(u) {
        return;
      }
      var c := Charge(model, u);
      OneMoreCharge(price, charges, usd, priced, unpriced, c);
      hide Accounts;
      charges := charges + [c];
      match price(c) {
        case None =>
          unpriced := true;
        case Some(d) =>
          usd := usd + d;
          priced := true;
      }
    }

    /** The total, and whether it is complete. */
    function USD(): (r: (real, bool))
      requires Valid()
      reads this
      ensures r.0 == PricedTotal(price, charges)
      ensures r.1 <==> charges != [] && AllPriced(price, charges)
    {
      assert charges != [] ==> charges[0] in charges;
      (usd, priced && !unpriced)
    }

    /** The total of what could be priced, and whether anything could. */
    function Floor(): (real, bool)
      reads this
    {
      (usd, priced)
    }

    predicate HasReport()
      requires Valid()
      reads this
      ensures HasReport() <==> charges != []
    {
      assert charges != [] ==> charges[0] in charges;
      priced || unpriced
    }
  }

  /** The account allows another turn under the cap. */
  ghost predicate WithinCap(cap: real, price: Pricer, charges: seq<Charge>) {
    charges == [] || (AllPriced(price, charges) && PricedTotal(price, charges) < cap)
  }

  /**
   The check before a turn.  With an account, it stops exactly when the known dollars reach the cap,
   or some charge could not be priced and the caller does not allow that.
  */
  method DollarBudgetStop(cap: real, allowUnpriced: bool, spend: Spend?, costFn: Option<Usage -> Option<real>>,
          u: Usage)
    returns (stop: bool)
    requires spend != null ==> spend.Valid()
    ensures cap <= 0.0 ==> !stop
    ensures cap > 0.0 && spend != null ==>
              (stop <==> spend.charges != [] &&
                         ((PricedTotal(spend.price, spend.charges) >= cap && AnyPriced(spend.price, spend.charges))
                          || (!allowUnpriced && !AllPriced(spend.price, spend.charges))))
    ensures cap > 0.0 && spend != null && !allowUnpriced ==>
              (!stop <==> WithinCap(cap, spend.price, spend.charges))
    ensures cap > 0.0 && spend == null && !allowUnpriced ==>
              (!stop <==> !Reported(u) || (costFn.Some? && costFn.value(u).Some? && costFn.value(u).value < cap))
    ensures cap > 0.0 && spend == null && allowUnpriced ==>
              (stop <==> Reported(u) && costFn.Some? && costFn.value(u).Some? && costFn.value(u).value >= cap)
  {
    if cap <= 0.0 {
      return false;
    }
    var cost, ok := 0.0, false;
    if spend != null {
      var floor := spend.Floor();
      cost, ok := floor.0, floor.1;
      if !ok && !spend.HasReport() {
        return false;
      }
      if ok && cost >= cap {
        return true;
      }
      var total := spend.USD();
      if !total.1 {
        ok := false;
      }
    } else {
      if !Reported(u) {
        return false;
      }
      if costFn.Some? {
        var c := costFn.value(u);
        ok := c.Some?;
        cost := if ok then c.value else 0.0;
      }
    }
    if !ok {
      return !allowUnpriced;
    }
    return cost >= cap;
  }
}
