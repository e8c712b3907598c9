/**
 * `BinomialModel` (lib/pricing_models.py): the Cox-Ross-Rubinstein tree.
 * The up factor, the risk-neutral probability and the one-step discount
 * come from exp and sqrt, so the constructor takes them as given; the down
 * factor is 1/u, as `__init__` computes it (lib/pricing_models.py:263-275).
 *
 * The European price rolls a vector of terminal payoffs back one step at a
 * time; the American price fills a stock tree and an option tree (two
 * (n+1)x(n+1) arrays) and takes, at every node, the larger of the
 * continuation and the exercise value, counting the nodes where exercise
 * wins. Both are proved equal to recursive column functions, about which the
 * pricing facts are proved.
 */
module Binomial {
  import opened Common
  import opened Payoffs

  function Pow(x: real, k: nat): real {
    if k == 0 then 1.0 else Pow(x, k - 1) * x
  }

  /** The value of a node from its up and down successors: `discount * (p * up + (1 - p) * down)`. */
  function Step(p: real, discount: real, up: real, down: real): real {
    discount * (p * up + (1.0 - p) * down)
  }

  /** One step of backward induction over a whole column. */
  function Rollback(next: seq<real>, p: real, discount: real): (r: seq<real>)
    requires |next| >= 1
    ensures |r| == |next| - 1
  {
    seq(|next| - 1, j requires 0 <= j < |next| - 1 => Step(p, discount, next[j], next[j + 1]))
  }

  /** The number of positions where `a` is strictly above `b`. */
  function CountAbove(a: seq<real>, b: seq<real>): (c: nat)
    requires |a| == |b|
    ensures c <= |a|
  {
    if |a| == 0 then 0
    else CountAbove(a[..|a| - 1], b[..|b| - 1]) + (if a[|a| - 1] > b[|b| - 1] then 1 else 0)
  }

  /** 0 + 1 + ... + n: the number of nodes in columns 1..n of a tree. */
  function Triangle(n: nat): nat {
    if n == 0 then 0 else Triangle(n - 1) + n
  }

  lemma {:induction false} TriangleClosedForm(n: nat)
    ensures 2 * Triangle(n) == n * (n + 1)
  {
    if n > 0 {
      TriangleClosedForm(n - 1);
      assert n * (n + 1) == (n - 1) * n + 2 * n;
    }
  }

  lemma MulMonotone(c: real, x: real, y: real)
    requires c >= 0.0 && x >= y
    ensures c * x >= c * y
  {
    assert c * x - c * y == c * (x - y);
  }

  /** With 0 <= p <= 1 and a non-negative discount, a node's value grows with its successors' values. */
  lemma WeightedMonotone(p: real, w: real, up: real, down: real, up': real, down': real)
    requires p >= 0.0 && w >= 0.0
    requires up >= up' && down >= down'
    ensures p * up + w * down >= p * up' + w * down'
  {
    MulMonotone(p, up, up');
    MulMonotone(w, down, down');
  }

  lemma StepMonotone(p: real, discount: real, up: real, down: real, up': real, down': real)
    requires 0.0 <= p <= 1.0 && discount >= 0.0
    requires up >= up' && down >= down'
    ensures Step(p, discount, up, down) >= Step(p, discount, up', down')
  {
    WeightedMonotone(p, 1.0 - p, up, down, up', down');
    MulMonotone(discount, p * up + (1.0 - p) * down, p * up' + (1.0 - p) * down');
  }

  /** With 0 <= p <= 1 and a non-negative discount, rolling back keeps the pointwise order of two columns. */
  lemma RollbackMonotone(a: seq<real>, b: seq<real>, p: real, discount: real)
    requires |a| == |b| >= 1
    requires 0.0 <= p <= 1.0 && discount >= 0.0
    requires forall j :: 0 <= j < |a| ==> a[j] >= b[j]
    ensures forall j :: 0 <= j < |a| - 1 ==> Rollback(a, p, discount)[j] >= Rollback(b, p, discount)[j]
  {
    forall j | 0 <= j < |a| - 1
      ensures Rollback(a, p, discount)[j] >= Rollback(b, p, discount)[j]
    {
      StepMonotone(p, discount, a[j], a[j + 1], b[j], b[j + 1]);
    }
  }

  /** With 0 <= p <= 1 and a non-negative discount, rolling back a non-negative column stays non-negative. */
  lemma RollbackNonNegative(a: seq<real>, p: real, discount: real)
    requires |a| >= 1
    requires 0.0 <= p <= 1.0 && discount >= 0.0
    requires forall j :: 0 <= j < |a| ==> a[j] >= 0.0
    ensures forall j :: 0 <= j < |a| - 1 ==> Rollback(a, p, discount)[j] >= 0.0
  {
    var zero := seq(|a|, _ => 0.0);
    RollbackMonotone(a, zero, p, discount);
    forall j | 0 <= j < |a| - 1
      ensures Rollback(zero, p, discount)[j] == 0.0
    {
    }
  }

  /** What `get_results()` returns, without the bump-and-reprice Greeks. */
  datatype BinomialResults = BinomialResults(
    treeSteps: nat, upFactor: real, downFactor: real, riskNeutralProb: real,
    europeanPrice: real, americanPrice: real, earlyExercisePremium: real, earlyExerciseNodes: nat)

  class BinomialModel {
    const S: real
    const K: real
    const T: real
    const r: real
    const sigma: real
    const q: real
    const nSteps: nat
    const dt: real
    const u: real
    const d: real
    const p: real
    const discount: real

    /**
     * `BinomialModel(S, K, T, r, sigma, q, n_steps)`, with `u = exp(sigma*sqrt(dt))`,
     * `p` and `discount = exp(-r*dt)` given.
     */
    constructor (S: real, K: real, T: real, r: real, sigma: real, q: real, nSteps: nat,
                 u: real, p: real, discount: real)
      requires nSteps > 0 && u > 0.0
      ensures this.S == S && this.K == K && this.r == r && this.q == q
      ensures this.T == Floored(T) && this.sigma == Floored(sigma)
      ensures this.nSteps == nSteps && this.dt == Floored(T) / nSteps as real
      ensures this.u == u && this.d * u == 1.0 && this.p == p && this.discount == discount
    {
      this.S, this.K, this.r, this.q := S, K, r, q;
      this.T := Floored(T);
      this.sigma := Floored(sigma);
      this.nSteps := nSteps;
      this.dt := Floored(T) / nSteps as real;
      this.u := u;
      this.d := 1.0 / u;
      this.p := p;
      this.discount := discount;
    }

    /** Node `stock_tree[j, i]`: i steps in, j of them down, built by the multiplications of `american_option_price` (lib/pricing_models.py:298-302). */
    function StockAt(j: nat, i: nat): real
      requires j <= i
    {
      if i == 0 then S
      else if j == i then StockAt(i - 1, i - 1) * d
      else StockAt(j, i - 1) * u
    }

    /** `stock_tree[j, i] = S * u^(i-j) * d^j`. */
    lemma {:induction false} StockClosedForm(j: nat, i: nat)
      requires j <= i
      ensures StockAt(j, i) == S * Pow(u, i - j) * Pow(d, j)
    {
      if i == 0 {
      } else if j == i {
        StockClosedForm(i - 1, i - 1);
        assert Pow(d, i) == Pow(d, i - 1) * d;
        assert StockAt(j, i) == (S * Pow(d, i - 1)) * d;
      } else {
        StockClosedForm(j, i - 1);
        assert Pow(u, i - j) == Pow(u, i - 1 - j) * u;
        var a, b := Pow(u, i - 1 - j), Pow(d, j);
        assert StockAt(j, i) == (S * a * b) * u;
        assert (S * a * b) * u == S * (a * u) * b;
      }
    }

    /** `_build_terminal_stock_prices()`: S * u^(n-j) * d^j for j = 0..n. */
    function TerminalPrices(): (prices: seq<real>)
      ensures |prices| == nSteps + 1
    {
      seq(nSteps + 1, j requires 0 <= j <= nSteps => S * Pow(u, nSteps - j) * Pow(d, j))
    }

    /** The closed-form terminal prices are the last column of the multiplicatively built stock tree. */
    lemma TerminalPricesMatchTree(j: nat)
      requires j <= nSteps
      ensures TerminalPrices()[j] == StockAt(j, nSteps)
    {
      StockClosedForm(j, nSteps);
    }

    function ExerciseValue(kind: Kind, j: nat, i: nat): real
      requires j <= i
    {
      Payoff(kind, StockAt(j, i), K)
    }

    /** The exercise values of column i of the tree. */
    function ExerciseColumn(kind: Kind, i: nat): (col: seq<real>)
      ensures |col| == i + 1
    {
      seq(i + 1, j requires 0 <= j <= i => ExerciseValue(kind, j, i))
    }

    /** The payoff at each terminal stock price. */
    function ExpiryPayoffs(kind: Kind): (values: seq<real>)
      ensures |values| == nSteps + 1
    {
      var prices := TerminalPrices();
      seq(nSteps + 1, j requires 0 <= j <= nSteps => Payoff(kind, prices[j], K))
    }

    /** Column i of the European induction: payoffs at expiry, then one rollback per step. */
    function EuropeanColumn(kind: Kind, i: nat): (col: seq<real>)
      requires i <= nSteps
      ensures |col| == i + 1
      decreases nSteps - i
    {
      if i == nSteps then ExpiryPayoffs(kind)
      else Rollback(EuropeanColumn(kind, i + 1), p, discount)
    }

    /** Column i of `option_tree`: the larger of continuation and exercise at every node before expiry. */
    function AmericanColumn(kind: Kind, i: nat): (col: seq<real>)
      requires i <= nSteps
      ensures |col| == i + 1
      decreases nSteps - i
    {
      if i == nSteps then ExerciseColumn(kind, nSteps)
      else
        var cont := Rollback(AmericanColumn(kind, i + 1), p, discount);
        seq(i + 1, j requires 0 <= j <= i => Max(cont[j], ExerciseValue(kind, j, i)))
    }

    /**
     * `early_exercise_count` from column i onwards: the nodes where exercise
     * beats continuation. Column c has c+1 nodes, so columns i..n-1 hold at
     * most Triangle(n) - Triangle(i) of them.
     */
    function EarlyExercises(kind: Kind, i: nat): (c: nat)
      requires i <= nSteps
      ensures c + Triangle(i) <= Triangle(nSteps)
      decreases nSteps - i
    {
      if i == nSteps then 0
      else
        CountAbove(ExerciseColumn(kind, i), Rollback(AmericanColumn(kind, i + 1), p, discount))
        + EarlyExercises(kind, i + 1)
    }

    /** Every American node is worth at least its exercise value and, before expiry, its continuation value. */
    lemma AmericanNodeDominates(kind: Kind, i: nat, j: nat)
      requires j <= i <= nSteps
      ensures AmericanColumn(kind, i)[j] >= ExerciseValue(kind, j, i)
      ensures i < nSteps ==> AmericanColumn(kind, i)[j] >= Rollback(AmericanColumn(kind, i + 1), p, discount)[j]
    {
    }

    /** At expiry the two inductions start from the same payoffs. */
    lemma ExpiryColumnsAgree(kind: Kind)
      ensures EuropeanColumn(kind, nSteps) == AmericanColumn(kind, nSteps)
    {
      forall j | 0 <= j <= nSteps
        ensures EuropeanColumn(kind, nSteps)[j] == AmericanColumn(kind, nSteps)[j]
      {
        TerminalPricesMatchTree(j);
      }
    }

    /** Every European node value is non-negative when 0 <= p <= 1 and the discount is non-negative. */
    lemma {:induction false} EuropeanNonNegative(kind: Kind, i: nat)
      requires i <= nSteps
      requires 0.0 <= p <= 1.0 && discount >= 0.0
      ensures forall j :: 0 <= j <= i ==> EuropeanColumn(kind, i)[j] >= 0.0
      decreases nSteps - i
    {
      if i < nSteps {
        EuropeanNonNegative(kind, i + 1);
        RollbackNonNegative(EuropeanColumn(kind, i + 1), p, discount);
      }
    }

    /** Every American node is worth at least the European node when 0 <= p <= 1 and the discount is non-negative. */
    lemma {:induction false} AmericanDominatesEuropean(kind: Kind, i: nat)
      requires i <= nSteps
      requires 0.0 <= p <= 1.0 && discount >= 0.0
      ensures forall j :: 0 <= j <= i ==> AmericanColumn(kind, i)[j] >= EuropeanColumn(kind, i)[j]
      decreases nSteps - i
    {
      if i == nSteps {
        ExpiryColumnsAgree(kind);
      } else {
        AmericanDominatesEuropean(kind, i + 1);
        RollbackMonotone(AmericanColumn(kind, i + 1), EuropeanColumn(kind, i + 1), p, discount);
      }
    }

    /** `european_option_price(option_type)`: roll the payoff vector back n times and read its only value. */
    method EuropeanPrice(kind: Kind) returns (price: real)
      ensures price == EuropeanColumn(kind, 0)[0]
    {
      var values := ExpiryPayoffs(kind);
      var i := nSteps;
      while i > 0
        invariant 0 <= i <= nSteps
        invariant values == EuropeanColumn(kind, i)
      {
        values := Rollback(values, p, discount);
        i := i - 1;
      }
      price := values[0];
    }

    /** Fills `stock_tree`: column i holds the up-moves of column i-1 in rows 0..i-1 and one more down-move in row i. */
    method BuildStockTree() returns (tree: array2<real>)
      ensures fresh(tree)
      ensures tree.Length0 == nSteps + 1 && tree.Length1 == nSteps + 1
      ensures forall j, i :: 0 <= j <= i <= nSteps ==> tree[j, i] == StockAt(j, i)
    {
      tree := new real[nSteps + 1, nSteps + 1]((_, _) => 0.0);
      tree[0, 0] := S;
      for i := 1 to nSteps + 1
        invariant forall j, c :: 0 <= j <= c < i ==> tree[j, c] == StockAt(j, c)
      {
        FillStockColumn(tree, i - 1, i);
      }
    }

    /** One column of `stock_tree`, from the column before it. */
    method FillStockColumn(tree: array2<real>, prev: nat, i: nat)
      requires i == prev + 1 <= nSteps && tree.Length0 == nSteps + 1 && tree.Length1 == nSteps + 1
      requires forall j :: 0 <= j <= prev ==> tree[j, prev] == StockAt(j, prev)
      modifies tree
      ensures forall j :: 0 <= j <= i ==> tree[j, i] == StockAt(j, i)
      ensures forall k, c :: 0 <= k < tree.Length0 && 0 <= c < tree.Length1 && c != i ==> tree[k, c] == old(tree[k, c])
    {
      for j := 0 to i
        invariant forall j' :: 0 <= j' < j ==> tree[j', i] == StockAt(j', i)
        invariant forall k, c :: 0 <= k < tree.Length0 && 0 <= c < tree.Length1 && c != i ==> tree[k, c] == old(tree[k, c])
      {
        tree[j, i] := tree[j, prev] * u;
      }
      tree[i, i] := tree[prev, prev] * d;
    }

    /** `option_tree[0:i+1, i] = np.maximum(a, b)`: column i becomes the element-wise maximum. */
    static method WriteColumnMax(option: array2<real>, i: nat, a: seq<real>, b: seq<real>)
      requires |a| == |b| == i + 1 <= option.Length0 && i < option.Length1
      modifies option
      ensures forall k :: 0 <= k <= i ==> option[k, i] == Max(a[k], b[k])
      ensures forall k, c :: 0 <= k < option.Length0 && 0 <= c < option.Length1 && (c != i || k > i) ==>
        option[k, c] == old(option[k, c])
    {
      for j := 0 to i + 1
        invariant forall k :: 0 <= k < j ==> option[k, i] == Max(a[k], b[k])
        invariant forall k, c :: 0 <= k < option.Length0 && 0 <= c < option.Length1 && (c != i || k > i) ==>
          option[k, c] == old(option[k, c])
      {
        option[j, i] := Max(a[j], b[j]);
      }
    }

    /** Column i of the option tree is the element-wise maximum of the continuation and exercise columns. */
    lemma AmericanColumnStep(kind: Kind, i: nat)
      requires i < nSteps
      ensures forall k :: 0 <= k <= i ==>
        AmericanColumn(kind, i)[k] == Max(Rollback(AmericanColumn(kind, i + 1), p, discount)[k], ExerciseColumn(kind, i)[k])
    {
    }

    /**
     * One backward step of the American induction, as lib/pricing_models.py:309-319 does it:
     * the continuation vector from column i+1, the exercise vector from the
     * stock tree, the count of nodes where exercise is larger, then column i
     * written as their element-wise maximum.
     */
    method FillColumn(kind: Kind, stock: array2<real>, option: array2<real>, i: nat, next: nat, count: nat)
      returns (count': nat)
      requires next == i + 1 <= nSteps
      requires stock != option
      requires stock.Length0 == nSteps + 1 && stock.Length1 == nSteps + 1
      requires option.Length0 == nSteps + 1 && option.Length1 == nSteps + 1
      requires forall j, c :: 0 <= j <= c <= nSteps ==> stock[j, c] == StockAt(j, c)
      requires forall j :: 0 <= j <= next ==> option[j, next] == AmericanColumn(kind, next)[j]
      modifies option
      ensures forall j :: 0 <= j <= i ==> option[j, i] == AmericanColumn(kind, i)[j]
      ensures forall k, c :: 0 <= k < option.Length0 && 0 <= c < option.Length1 && (c != i || k > i) ==>
        option[k, c] == old(option[k, c])
      ensures count' == count + CountAbove(ExerciseColumn(kind, i), Rollback(AmericanColumn(kind, next), p, discount))
    {
      var nextValues := ColumnOf(option, next);
      assert nextValues == AmericanColumn(kind, next);
      var continuation := Rollback(nextValues, p, discount);
      var exercise := ExercisesOf(kind, stock, i);
      count' := count + CountAbove(exercise, continuation);
      AmericanColumnStep(kind, i);
      assert forall k :: 0 <= k <= i ==> Max(continuation[k], exercise[k]) == AmericanColumn(kind, i)[k];
      WriteColumnMax(option, i, continuation, exercise);
    }

    /** `option_tree[0:i+2, i+1]` as a vector. */
    static function ColumnOf(option: array2<real>, c: nat): (col: seq<real>)
      requires c < option.Length0 && c < option.Length1
      reads option
      ensures |col| == c + 1 && forall k :: 0 <= k <= c ==> col[k] == option[k, c]
    {
      seq(c + 1, k requires 0 <= k <= c reads option => option[k, c])
    }

    /** The exercise vector of column i, read off the stock tree. */
    function ExercisesOf(kind: Kind, stock: array2<real>, i: nat): (col: seq<real>)
      requires i <= nSteps && stock.Length0 == nSteps + 1 && stock.Length1 == nSteps + 1
      requires forall j, c :: 0 <= j <= c <= nSteps ==> stock[j, c] == StockAt(j, c)
      reads stock
      ensures col == ExerciseColumn(kind, i)
    {
      seq(i + 1, k requires 0 <= k <= i reads stock => Payoff(kind, stock[k, i], K))
    }

    /** The expiry column of `option_tree`: the payoff at every terminal stock price. */
    method FillExpiry(kind: Kind, stock: array2<real>, option: array2<real>)
      requires stock != option
      requires stock.Length0 == nSteps + 1 && stock.Length1 == nSteps + 1
      requires option.Length0 == nSteps + 1 && option.Length1 == nSteps + 1
      requires forall j, c :: 0 <= j <= c <= nSteps ==> stock[j, c] == StockAt(j, c)
      modifies option
      ensures forall k :: 0 <= k <= nSteps ==> option[k, nSteps] == AmericanColumn(kind, nSteps)[k]
      ensures forall k, c :: 0 <= k < option.Length0 && 0 <= c < nSteps ==> option[k, c] == old(option[k, c])
    {
      for j := 0 to nSteps + 1
        invariant forall k :: 0 <= k < j ==> option[k, nSteps] == AmericanColumn(kind, nSteps)[k]
        invariant forall k, c :: 0 <= k < option.Length0 && 0 <= c < nSteps ==> option[k, c] == old(option[k, c])
      {
        assert AmericanColumn(kind, nSteps)[j] == Payoff(kind, stock[j, nSteps], K);
        option[j, nSteps] := Payoff(kind, stock[j, nSteps], K);
      }
    }

    /** `american_option_price(option_type)`: the root of the option tree and the number of early-exercise nodes. */
    method AmericanPrice(kind: Kind) returns (price: real, earlyExerciseCount: nat)
      ensures price == AmericanColumn(kind, 0)[0]
      ensures earlyExerciseCount == EarlyExercises(kind, 0) && earlyExerciseCount <= Triangle(nSteps)
    {
      var stock := BuildStockTree();
      var option := new real[nSteps + 1, nSteps + 1]((_, _) => 0.0);
      FillExpiry(kind, stock, option);
      earlyExerciseCount := FillBackwards(kind, stock, option);
      price := option[0, 0];
    }

    /** One pass of the backward loop at lib/pricing_models.py:309-319: the filled columns i.. grow to i - 1.. */
    method BackStep(kind: Kind, stock: array2<real>, option: array2<real>, i: nat, count: nat) returns (count': nat)
      requires 0 < i <= nSteps
      requires stock != option
      requires stock.Length0 == nSteps + 1 && stock.Length1 == nSteps + 1
      requires option.Length0 == nSteps + 1 && option.Length1 == nSteps + 1
      requires forall j, c :: 0 <= j <= c <= nSteps ==> stock[j, c] == StockAt(j, c)
      requires forall k, c {:trigger option[k, c]} :: i <= c <= nSteps && 0 <= k <= c ==> option[k, c] == AmericanColumn(kind, c)[k]
      requires count == EarlyExercises(kind, i)
      modifies option
      ensures forall k, c {:trigger option[k, c]} :: i - 1 <= c <= nSteps && 0 <= k <= c ==> option[k, c] == AmericanColumn(kind, c)[k]
      ensures forall k, c :: 0 <= c < k <= nSteps ==> option[k, c] == old(option[k, c])
      ensures count' == EarlyExercises(kind, i - 1)
    {
      count' := FillColumn(kind, stock, option, i - 1, i, count);
    }

    /** The backward loop over the columns n-1 down to 0, counting the early-exercise nodes. */
    method FillBackwards(kind: Kind, stock: array2<real>, option: array2<real>) returns (count: nat)
      requires stock != option
      requires stock.Length0 == nSteps + 1 && stock.Length1 == nSteps + 1
      requires option.Length0 == nSteps + 1 && option.Length1 == nSteps + 1
      requires forall j, c :: 0 <= j <= c <= nSteps ==> stock[j, c] == StockAt(j, c)
      requires forall k :: 0 <= k <= nSteps ==> option[k, nSteps] == AmericanColumn(kind, nSteps)[k]
      modifies option
      ensures forall k, c {:trigger option[k, c]} :: 0 <= k <= c <= nSteps ==> option[k, c] == AmericanColumn(kind, c)[k]
      ensures forall k, c :: 0 <= c < k <= nSteps ==> option[k, c] == old(option[k, c])
      ensures option[0, 0] == AmericanColumn(kind, 0)[0]
      ensures count == EarlyExercises(kind, 0)
    {
      count := 0;
      var i := nSteps;
      assert EarlyExercises(kind, nSteps) == 0;
      while i > 0
        invariant 0 <= i <= nSteps
        invariant forall k, c {:trigger option[k, c]} :: i <= c <= nSteps && 0 <= k <= c ==> option[k, c] == AmericanColumn(kind, c)[k]
        invariant forall k, c :: 0 <= c < k <= nSteps ==> option[k, c] == old(option[k, c])
        invariant count == EarlyExercises(kind, i)
      {
        label Before:
        count := BackStep(kind, stock, option, i, count);
        forall k, c | 0 <= c < k <= nSteps
          ensures option[k, c] == old(option[k, c])
        {
          assert option[k, c] == old@Before(option[k, c]);
        }
        i := i - 1;
      }
    }

    /**
     * `get_results(option_type)`: both prices, the early-exercise premium
     * american - european, and the node count. With 0 <= p <= 1 and a
     * non-negative discount the premium is never negative.
     */
    method GetResults(optionType: string) returns (res: BinomialResults)
      ensures res.treeSteps == nSteps && res.upFactor == u && res.downFactor == d && res.riskNeutralProb == p
      ensures res.europeanPrice == EuropeanColumn(KindOf(optionType), 0)[0]
      ensures res.americanPrice == AmericanColumn(KindOf(optionType), 0)[0]
      ensures res.earlyExercisePremium == res.americanPrice - res.europeanPrice
      ensures 0.0 <= p <= 1.0 && discount >= 0.0 ==> res.earlyExercisePremium >= 0.0 && res.europeanPrice >= 0.0
      ensures res.earlyExerciseNodes == EarlyExercises(KindOf(optionType), 0)
      ensures res.earlyExerciseNodes <= Triangle(nSteps)
    {
      var kind := KindOf(optionType);
      var european := EuropeanPrice(kind);
      var american, nodes := AmericanPrice(kind);
      if 0.0 <= p <= 1.0 && discount >= 0.0 {
        AmericanDominatesEuropean(kind, 0);
        EuropeanNonNegative(kind, 0);
      }
      res := BinomialResults(nSteps, u, d, p, european, american, american - european, nodes);
    }
  }
}
