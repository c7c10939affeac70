/** Adding up what a run has cost. Prices may be unknown, so every cost is optional. */
module RunUsage {
  import opened Wrappers

  datatype Component = Component(tokens: nat, cost: Option<real>)

  // Input, cached, cache creation, output and reasoning, in this order.
  const PARTS := 5
  type Components = ps: seq<Component> | |ps| == PARTS witness seq(PARTS, _ => Component(0, Some(0.0)))

  datatype Usage = Usage(parts: Components, hasUnknownCosts: bool, costsIncluded: bool)

  // ---------- what the sums mean ----------

  function Known(c: Component): real {
    c.cost.GetOr(0.0)
  }

  // The known costs of some components.
  function Costs(ps: seq<Component>): real {
    if ps == [] then 0.0 else Costs(ps[..|ps| - 1]) + Known(ps[|ps| - 1])
  }

  // The known costs of a history.
  function KnownCosts(h: seq<Usage>): real {
    if h == [] then 0.0 else KnownCosts(h[..|h| - 1]) + Costs(h[|h| - 1].parts)
  }

  function TokensAt(h: seq<Usage>, k: nat): nat
    requires k < PARTS
  {
    if h == [] then 0 else TokensAt(h[..|h| - 1], k) + h[|h| - 1].parts[k].tokens
  }

  function CostAt(h: seq<Usage>, k: nat): real
    requires k < PARTS
  {
    if h == [] then 0.0 else CostAt(h[..|h| - 1], k) + Known(h[|h| - 1].parts[k])
  }

  predicate Priceless(ps: seq<Component>) {
    exists k :: 0 <= k < |ps| && ps[k].cost.None?
  }

  // Some price in the usage is not known.
  predicate Incomplete(u: Usage) {
    u.hasUnknownCosts || Priceless(u.parts)
  }

  function Columns(h: seq<Usage>): Components {
    seq(PARTS, k requires 0 <= k < PARTS => Component(TokensAt(h, k), Some(CostAt(h, k))))
  }

  function Sum(h: seq<Usage>): Option<Usage> {
    if h == [] then None
    else Some(Usage(Columns(h),
                    exists i :: 0 <= i < |h| && Incomplete(h[i]),
                    exists i :: 0 <= i < |h| && h[i].costsIncluded))
  }

  function TotalCost(u: Option<Usage>): Option<real> {
    if u.None? || forall k :: 0 <= k < PARTS ==> u.value.parts[k].cost.None? then None
    else Some(Costs(u.value.parts))
  }

  function Tokens(ps: seq<Component>): nat {
    if ps == [] then 0 else Tokens(ps[..|ps| - 1]) + ps[|ps| - 1].tokens
  }

  predicate HasTokens(u: Option<Usage>) {
    u.Some? && Tokens(u.value.parts) > 0
  }

  // ---------- the code ----------

  method SumUsageHistory(usageHistory: seq<Usage>) returns (sum: Option<Usage>)
    ensures sum == Sum(usageHistory)
  {
    if |usageHistory| == 0 { return None; }
    var hasIncompleteCosts, anyCostsIncluded := false, false;
    var parts: Components := seq(PARTS, _ => Component(0, Some(0.0)));
    for i := 0 to |usageHistory|
      invariant forall k :: 0 <= k < PARTS ==>
                  parts[k] == Component(TokensAt(usageHistory[..i], k), Some(CostAt(usageHistory[..i], k)))
      invariant hasIncompleteCosts <==> exists j :: 0 <= j < i && Incomplete(usageHistory[j])
      invariant anyCostsIncluded <==> exists j :: 0 <= j < i && usageHistory[j].costsIncluded
    {
      var usage := usageHistory[i];
      var incomplete: bool;
      if usage.costsIncluded { anyCostsIncluded := true; }
      parts, incomplete := AddParts(parts, usage.parts);
      if usage.hasUnknownCosts || incomplete { hasIncompleteCosts := true; }
      assert usageHistory[..i + 1][..i] == usageHistory[..i];
    }
    assert usageHistory[..|usageHistory|] == usageHistory;
    assert parts == Columns(usageHistory);
    sum := Some(Usage(parts, hasIncompleteCosts, anyCostsIncluded));
  }

  // One turn of the outer loop: the loop over the components.
  method AddParts(parts: Components, more: Components) returns (sum: Components, incomplete: bool)
    requires forall k :: 0 <= k < PARTS ==> parts[k].cost.Some?
    ensures forall k :: 0 <= k < PARTS ==>
              sum[k] == Component(parts[k].tokens + more[k].tokens, Some(parts[k].cost.value + Known(more[k])))
    ensures incomplete == Priceless(more)
  {
    sum, incomplete := parts, false;
    for k := 0 to PARTS
      invariant forall j :: 0 <= j < k ==>
                  sum[j] == Component(parts[j].tokens + more[j].tokens, Some(parts[j].cost.value + Known(more[j])))
      invariant forall j :: k <= j < PARTS ==> sum[j] == parts[j]
      invariant incomplete <==> exists j :: 0 <= j < k && more[j].cost.None?
    {
      var cost := sum[k].cost;
      if more[k].cost.None? {
        incomplete := true;
      } else {
        cost := Some(cost.GetOr(0.0) + more[k].cost.value);
      }
      sum := sum[k := Component(sum[k].tokens + more[k].tokens, cost)];
    }
  }

  method GetTotalCost(usage: Option<Usage>) returns (cost: Option<real>)
    ensures cost == TotalCost(usage)
  {
    if usage.None? { return None; }
    var parts, total, hasAnyCost := usage.value.parts, 0.0, false;
    for k := 0 to PARTS
      invariant total == Costs(parts[..k])
      invariant hasAnyCost <==> exists j :: 0 <= j < k && parts[j].cost.Some?
    {
      assert parts[..k + 1][..k] == parts[..k];
      if parts[k].cost.Some? {
        total := total + parts[k].cost.value;
        hasAnyCost := true;
      }
    }
    assert parts[..PARTS] == parts;
    cost := if hasAnyCost then Some(total) else None;
  }

  // ---------- the total of a sum is the sum of the known costs ----------

  lemma {:induction false} AddColumn(more: seq<Component>, ps: seq<Component>, qs: seq<Component>)
    requires |ps| == |qs| <= |more|
    requires forall k :: 0 <= k < |ps| ==> qs[k].cost == Some(Known(ps[k]) + Known(more[k]))
    ensures Costs(qs) == Costs(ps) + Costs(more[..|ps|])
  {
    if ps != [] {
      var n := |ps| - 1;
      AddColumn(more, ps[..n], qs[..n]);
      assert more[..n + 1][..n] == more[..n];
    }
  }

  lemma {:induction false} ZeroColumns(ps: seq<Component>)
    requires forall k :: 0 <= k < |ps| ==> Known(ps[k]) == 0.0
    ensures Costs(ps) == 0.0
  {
    if ps != [] { ZeroColumns(ps[..|ps| - 1]); }
  }

  lemma {:induction false} ColumnsAddUp(h: seq<Usage>)
    ensures Costs(Columns(h)) == KnownCosts(h)
  {
    if h == [] {
      ZeroColumns(Columns(h));
    } else {
      var front, last := h[..|h| - 1], h[|h| - 1];
      ColumnsAddUp(front);
      AddColumn(last.parts, Columns(front), Columns(h));
      assert last.parts[..PARTS] == last.parts;
    }
  }

  // As soon as anything was recorded there is a total: the known costs, unknown ones counted as nothing.
  // So a test for a missing total never fires.
  lemma TotalOfSum(h: seq<Usage>)
    ensures TotalCost(Sum(h)) == if h == [] then None else Some(KnownCosts(h))
  {
    if h != [] {
      ColumnsAddUp(h);
      assert Columns(h)[0].cost.Some?;
    }
  }

  // ---------- what the columns are ----------

  lemma SumOfOne(u: Usage, k: nat)
    requires k < PARTS
    ensures var sum := Sum([u]).value;
      && sum.parts[k] == Component(u.parts[k].tokens, Some(u.parts[k].cost.GetOr(0.0)))
      && (sum.hasUnknownCosts <==> u.hasUnknownCosts || exists j :: 0 <= j < PARTS && u.parts[j].cost.None?) && sum.costsIncluded == u.costsIncluded
  {
    assert [u][..0] == [] && [u][0] == u;
    assert Incomplete(u) ==> Incomplete([u][0]);
    assert u.costsIncluded ==> [u][0].costsIncluded;
    assert TokensAt([u], k) == TokensAt([], k) + u.parts[k].tokens && CostAt([u], k) == CostAt([], k) + Known(u.parts[k]);
  }

  lemma {:induction false} ColumnsAppend(a: seq<Usage>, b: seq<Usage>, k: nat)
    requires k < PARTS
    ensures TokensAt(a + b, k) == TokensAt(a, k) + TokensAt(b, k) && CostAt(a + b, k) == CostAt(a, k) + CostAt(b, k)
  {
    if b == [] {
      assert a + b == a;
    } else {
      ColumnsAppend(a, b[..|b| - 1], k);
      assert (a + b)[..|a + b| - 1] == a + b[..|b| - 1];
    }
  }

  // Two histories in a row add up column by column, in tokens and in cost.
  lemma SumIsAdditive(a: seq<Usage>, b: seq<Usage>, k: nat)
    requires a != [] && b != [] && k < PARTS
    ensures var x, y, z := Sum(a).value.parts[k], Sum(b).value.parts[k], Sum(a + b).value.parts[k];
      z.tokens == x.tokens + y.tokens && z.cost == Some(x.cost.value + y.cost.value)
  {
    ColumnsAppend(a, b, k);
  }

  // The cost of a usage is the sum of its five parts, an unknown one counting nothing.
  lemma CostsOfFive(u: Usage)
    ensures Costs(u.parts) == u.parts[0].cost.GetOr(0.0) + u.parts[1].cost.GetOr(0.0) + u.parts[2].cost.GetOr(0.0)
                              + u.parts[3].cost.GetOr(0.0) + u.parts[4].cost.GetOr(0.0)
    ensures Tokens(u.parts) == u.parts[0].tokens + u.parts[1].tokens + u.parts[2].tokens + u.parts[3].tokens + u.parts[4].tokens
  {
    var ps := u.parts;
    assert ps[..5] == ps && ps[..5][..4] == ps[..4] && ps[..4][..3] == ps[..3] && ps[..3][..2] == ps[..2];
    assert ps[..2][..1] == ps[..1] && ps[..1][..0] == ps[..0];
    assert Costs(ps[..1]) == Known(ps[0]) && Tokens(ps[..1]) == ps[0].tokens;
    assert Costs(ps[..2]) == Costs(ps[..1]) + Known(ps[1]) && Tokens(ps[..2]) == Tokens(ps[..1]) + ps[1].tokens;
    assert Costs(ps[..3]) == Costs(ps[..2]) + Known(ps[2]) && Tokens(ps[..3]) == Tokens(ps[..2]) + ps[2].tokens;
    assert Costs(ps[..4]) == Costs(ps[..3]) + Known(ps[3]) && Tokens(ps[..4]) == Tokens(ps[..3]) + ps[3].tokens;
  }
}
