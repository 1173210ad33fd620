/** The deploy-cost comparison of tools/pkg/validate/validate.go. */
module Funds {
  import opened Wrappers

  datatype Verdict = Affordable | Unpriced | TooPoor(has: int, need: int)

  /** canAfford; None stands for a nil gas price. */
  function CanAfford(balance: int, gasPrice: Option<int>, gasUnits: nat): Verdict {
    if gasPrice.None? || gasPrice.value <= 0 then Unpriced
    else
      var need := gasPrice.value * gasUnits;
      if balance >= need then Affordable else TooPoor(balance, need)
  }

  /** The check multiplies, but decides as the chain does when it caps the gas at balance over price. */
  lemma AffordableWithinGasCap(balance: int, gasPrice: Option<int>, gasUnits: nat)
    ensures CanAfford(balance, gasPrice, gasUnits) == Affordable <==>
            gasPrice.Some? && gasPrice.value > 0 && balance / gasPrice.value >= gasUnits
  {
    if gasPrice.Some? && gasPrice.value > 0 {
      var price := gasPrice.value;
      var cap := balance / price;
      assert balance == price * cap + balance % price;
      if cap >= gasUnits {
        assert price * cap >= price * gasUnits;
      } else {
        assert price * (cap + 1) <= price * gasUnits;
      }
    }
  }

  /** More money or a lower positive price never turns a yes into a no. */
  lemma AffordableMonotone(balance: int, richer: int, price: int, cheaper: int, gasUnits: nat)
    requires balance <= richer && 0 < cheaper <= price
    requires CanAfford(balance, Some(price), gasUnits) == Affordable
    ensures CanAfford(richer, Some(cheaper), gasUnits) == Affordable
  {
    assert cheaper * gasUnits <= price * gasUnits;
  }

  /** A price that is missing or not positive is its own error; a deployer short of funds is told
      both sums. */
  lemma RefusalsTell(balance: int, gasPrice: Option<int>, gasUnits: nat)
    ensures CanAfford(balance, gasPrice, gasUnits) == Unpriced <==> gasPrice == None || gasPrice.value <= 0
    ensures CanAfford(balance, gasPrice, gasUnits).TooPoor? ==>
              var v := CanAfford(balance, gasPrice, gasUnits); v.has == balance < v.need == gasPrice.value * gasUnits
  {}
}
