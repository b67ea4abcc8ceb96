/** The budget page's key metrics: how much of the monthly savings is left to invest once the
    projects' monthly contributions are set aside. */
module KeyMetrics {

  /** `Math.max(0, savings - contribution)`. */
  function InvestmentCapacity(savings: real, contribution: real): (r: real)
    ensures r >= 0.0
    ensures r >= savings - contribution
    ensures r == 0.0 || r == savings - contribution
  {
    if savings - contribution > 0.0 then savings - contribution else 0.0
  }

  /** The capacity is the remainder exactly when savings cover the contributions, else nothing. */
  lemma CapacityCases(savings: real, contribution: real)
    ensures savings >= contribution ==> InvestmentCapacity(savings, contribution) == savings - contribution
    ensures contribution >= savings ==> InvestmentCapacity(savings, contribution) == 0.0
    ensures InvestmentCapacity(savings, contribution) > 0.0 <==> savings > contribution
  {
  }

  /** More savings never lower the capacity; a larger contribution never raises it. */
  lemma CapacityMonotone(s1: real, s2: real, c1: real, c2: real)
    requires s1 <= s2 && c2 <= c1
    ensures InvestmentCapacity(s1, c1) <= InvestmentCapacity(s2, c2)
  {
  }
}
