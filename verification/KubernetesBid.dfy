/** The Kubernetes bid, computed with `bc`: decimal numbers with a scale, where a product is cut to the
    larger scale of its factors (IEEE Std 1003.1, bc, with the variable scale at 0). */
module KubernetesBid {
  import opened Arith

  function Pow10(k: nat): (p: nat)
    ensures p >= 1
  {
    if k == 0 then 1 else 10 * Pow10(k - 1)
  }

  lemma {:induction false} Pow10Add(a: nat, b: nat)
    ensures Pow10(a + b) == Pow10(a) * Pow10(b)
  {
    if a > 0 {
      Pow10Add(a - 1, b);
      assert Pow10(a + b) == 10 * (Pow10(a - 1) * Pow10(b));
      assert 10 * (Pow10(a - 1) * Pow10(b)) == 10 * Pow10(a - 1) * Pow10(b);
    }
  }

  /** The number coef / 10^scale. */
  datatype Decimal = Decimal(coef: nat, scale: nat)

  function Max(a: nat, b: nat): nat {
    if a > b then a else b
  }

  function Min(a: nat, b: nat): nat {
    if a < b then a else b
  }

  /** The coefficient at a scale that is at least the number's own. */
  function At(d: Decimal, s: nat): nat
    requires s >= d.scale
  {
    d.coef * Pow10(s - d.scale)
  }

  /** min(a + b, max(0, a, b)), the scale of a product while the variable scale is 0. */
  function ProductScale(a: nat, b: nat): (s: nat)
    ensures s == Max(a, b) && a + b - s == Min(a, b)
  {
    Min(a + b, Max(0, Max(a, b)))
  }

  function Product(a: Decimal, b: Decimal): nat {
    a.coef * b.coef
  }

  function Quotient(x: nat, y: nat): (q: nat)
    requires y > 0
    ensures q * y <= x < q * y + y
  {
    x / y
  }

  /** The exact product has scale a + b; the digits beyond the product's scale are cut off. */
  function Mul(a: Decimal, b: Decimal): Decimal {
    var s := ProductScale(a.scale, b.scale);
    Decimal(Quotient(Product(a, b), Pow10(a.scale + b.scale - s)), s)
  }

  function Add(a: Decimal, b: Decimal): Decimal {
    var s := Max(a.scale, b.scale);
    Decimal(At(a, s) + At(b, s), s)
  }

  // ----- The bid --------------------------------------------------------------------------------

  /** A line of the pod list, with what the cluster says about the pod. */
  datatype Pod = Pod(name: string, running: bool, priorityClass: string)

  predicate Contains(s: string, word: string) {
    word <= s || (s != "" && Contains(s[1..], word))
  }

  predicate OccursAt(s: string, word: string, i: int) {
    0 <= i && i + |word| <= |s| && s[i..i + |word|] == word
  }

  lemma {:induction false} ContainsIff(s: string, word: string)
    ensures Contains(s, word) <==> exists i :: OccursAt(s, word, i)
  {
    if word <= s {
      assert OccursAt(s, word, 0);
    } else if s != "" {
      ContainsIff(s[1..], word);
      forall i ensures OccursAt(s[1..], word, i) ==> OccursAt(s, word, i + 1) {
        OccursLater(s, word, i);
      }
      forall i ensures OccursAt(s, word, i) ==> OccursAt(s[1..], word, i - 1) {
        OccursLater(s, word, i - 1);
      }
    }
  }

  /** A word that does not start the text occurs in the rest of it, one place earlier. */
  lemma OccursLater(s: string, word: string, i: int)
    requires s != "" && !(word <= s)
    ensures OccursAt(s[1..], word, i) <==> OccursAt(s, word, i + 1)
  {
    if i == -1 {
      assert !OccursAt(s, word, 0);
    } else if 0 <= i && i + 1 + |word| <= |s| {
      assert s[1..][i..i + |word|] == s[i + 1..i + 1 + |word|];
    }
  }

  /** The words that make a priority class urgent, anywhere in its name. */
  lemma UrgentIff(p: Pod)
    ensures Urgent(p) <==>
      exists i :: OccursAt(p.priorityClass, "high", i) || OccursAt(p.priorityClass, "urgent", i)
                  || OccursAt(p.priorityClass, "critical", i)
  {
    ContainsIff(p.priorityClass, "high");
    ContainsIff(p.priorityClass, "urgent");
    ContainsIff(p.priorityClass, "critical");
  }

  predicate Urgent(p: Pod) {
    Contains(p.priorityClass, "high") || Contains(p.priorityClass, "urgent") || Contains(p.priorityClass, "critical")
  }

  predicate Counts(p: Pod) {
    p.name != "" && p.running
  }

  function PodBid(p: Pod, base: Decimal, mult: Decimal): Decimal {
    if Urgent(p) then Mul(base, mult) else base
  }

  function Total(pods: seq<Pod>, base: Decimal, mult: Decimal): Decimal {
    if pods == [] then Decimal(0, 0)
    else
      var rest := Total(pods[..|pods| - 1], base, mult);
      var p := pods[|pods| - 1];
      if Counts(p) then Add(rest, PodBid(p, base, mult)) else rest
  }

  /** A pod adds its bid exactly when it has a name and runs, the urgent bid exactly for an urgent class. */
  lemma PodAdds(before: seq<Pod>, p: Pod, base: Decimal, mult: Decimal)
    ensures p.name == "" || !p.running ==> Total(before + [p], base, mult) == Total(before, base, mult)
    ensures p.name != "" && p.running ==>
      Total(before + [p], base, mult) == Add(Total(before, base, mult), if Urgent(p) then Mul(base, mult) else base)
  {
    var pods := before + [p];
    assert pods[..|pods| - 1] == before && pods[|pods| - 1] == p;
  }

  /** The scale of a product is the larger one, and its value the exact product cut down to that scale. */
  lemma MulIsCut(a: Decimal, b: Decimal)
    ensures Mul(a, b).scale == (if a.scale >= b.scale then a.scale else b.scale)
    ensures var unit := Pow10(if a.scale <= b.scale then a.scale else b.scale);
      Mul(a, b).coef * unit <= a.coef * b.coef < Mul(a, b).coef * unit + unit
  {
  }

  /** What the script observes before it looks at the pods. */
  datatype Cluster = Cluster(enabled: bool, kubectl: bool, reachable: bool)

  method BidKubernetes(c: Cluster, pods: seq<Pod>, base: Decimal, mult: Decimal) returns (total: Decimal)
    ensures total == if c.enabled && c.kubectl && c.reachable then Total(pods, base, mult) else Decimal(0, 0)
  {
    total := Decimal(0, 0);
    if !c.enabled || !c.kubectl || !c.reachable || pods == [] {
      return;
    }
    var i := 0;
    while i < |pods|
      invariant 0 <= i <= |pods|
      invariant total == Total(pods[..i], base, mult)
    {
      assert pods[..i + 1][..i] == pods[..i];
      var pod := pods[i];
      i := i + 1;
      if pod.name == "" {
        continue;
      }
      if pod.running {
        var bid := base;
        if Urgent(pod) {
          bid := Mul(base, mult);
        }
        total := Add(total, bid);
      }
    }
    assert pods[..|pods|] == pods;
  }

  // ----- Its bounds -----------------------------------------------------------------------------

  function Running(pods: seq<Pod>): nat {
    if pods == [] then 0
    else Running(pods[..|pods| - 1]) + (if Counts(pods[|pods| - 1]) then 1 else 0)
  }

  function Pressing(pods: seq<Pod>): nat {
    if pods == [] then 0
    else
      Pressing(pods[..|pods| - 1]) + (if Counts(pods[|pods| - 1]) && Urgent(pods[|pods| - 1]) then 1 else 0)
  }

  /** All amounts below are coefficients at the scale of the exact product. */
  function FullScale(base: Decimal, mult: Decimal): nat {
    base.scale + mult.scale
  }

  /** The sum without cutting. */
  function Exact(pods: seq<Pod>, base: Decimal, mult: Decimal): nat {
    if pods == [] then 0
    else
      var rest := Exact(pods[..|pods| - 1], base, mult);
      var p := pods[|pods| - 1];
      if !Counts(p) then rest
      else if Urgent(p) then rest + Product(base, mult)
      else rest + At(base, FullScale(base, mult))
  }

  /** One unit in the last place that a product keeps. */
  function Unit(base: Decimal, mult: Decimal): nat {
    Pow10(Min(base.scale, mult.scale))
  }

  /** A multiplier of at least 1, as the module's assertion demands. */
  predicate AtLeastOne(mult: Decimal) {
    mult.coef >= Pow10(mult.scale)
  }

  lemma AtShift(d: Decimal, s: nat, t: nat)
    requires d.scale <= s <= t
    ensures At(Decimal(At(d, s), s), t) == At(d, t)
  {
    Pow10Add(s - d.scale, t - s);
    Associate(d.coef, Pow10(s - d.scale), Pow10(t - s));
  }

  lemma Associate(a: nat, b: nat, c: nat)
    ensures a * b * c == a * (b * c)
  {
  }

  lemma Distribute(a: nat, b: nat, c: nat)
    ensures (a + b) * c == a * c + b * c
  {
  }

  lemma AddIsExact(a: Decimal, b: Decimal, t: nat)
    requires a.scale <= t && b.scale <= t
    ensures Add(a, b).scale <= t && At(Add(a, b), t) == At(a, t) + At(b, t)
  {
    var s := Max(a.scale, b.scale);
    AtShift(a, s, t);
    AtShift(b, s, t);
    Distribute(At(a, s), At(b, s), Pow10(t - s));
  }

  /** A product is cut by less than one unit, and a multiplier of at least 1 never makes a bid smaller. */
  lemma MulBounds(base: Decimal, mult: Decimal)
    requires AtLeastOne(mult)
    ensures var full := FullScale(base, mult);
      && Mul(base, mult).scale <= full
      && At(base, full) <= At(Mul(base, mult), full) <= Product(base, mult)
      && Product(base, mult) - At(Mul(base, mult), full) < Unit(base, mult)
  {
    var u := Mul(base, mult);
    var full := FullScale(base, mult);
    var unit := Unit(base, mult);
    var t := Min(base.scale, mult.scale);
    assert full - u.scale == t;
    assert At(u, full) == u.coef * unit;
    assert u.coef == Quotient(Product(base, mult), unit);
    Pow10Add(mult.scale - t, t);
    var k := base.coef * Pow10(mult.scale - t);
    Associate(base.coef, Pow10(mult.scale - t), unit);
    assert At(base, full) == k * unit;
    MulMono(base.coef, Pow10(mult.scale), mult.coef);
    MulLess(unit, u.coef, k);
    assert unit * u.coef == u.coef * unit && unit * k == k * unit;
    if u.coef >= k {
      MulMono(unit, k, u.coef);
    }
  }

  lemma MulMono(a: nat, b: nat, c: nat)
    requires b <= c
    ensures a * b <= a * c
  {
  }

  lemma {:induction false} FewerPressing(pods: seq<Pod>)
    ensures Pressing(pods) <= Running(pods)
  {
    if pods != [] {
      FewerPressing(pods[..|pods| - 1]);
    }
  }

  /** With `n` counted pods, `k` of them urgent. */
  predicate Within(n: nat, k: nat, total: nat, exact: nat, base: nat, product: nat, unit: nat) {
    n * base <= total <= exact <= n * product && exact - total <= k * (unit - 1)
  }

  lemma WithinPlain(n: nat, k: nat, total: nat, exact: nat, base: nat, product: nat, unit: nat)
    requires Within(n, k, total, exact, base, product, unit) && base <= product
    ensures Within(n + 1, k, total + base, exact + base, base, product, unit)
  {
    Distribute(n, 1, base);
    Distribute(n, 1, product);
  }

  lemma WithinUrgent(n: nat, k: nat, total: nat, exact: nat, bid: nat, base: nat, product: nat, unit: nat)
    requires Within(n, k, total, exact, base, product, unit) && unit >= 1
    requires base <= bid <= product && product - bid < unit
    ensures Within(n + 1, k + 1, total + bid, exact + product, base, product, unit)
  {
    Distribute(n, 1, base);
    Distribute(n, 1, product);
    Distribute(k, 1, unit - 1);
  }

  predicate Bounded(pods: seq<Pod>, total: Decimal, base: Decimal, mult: Decimal) {
    var full := FullScale(base, mult);
    && total.scale <= Max(base.scale, mult.scale) && total.scale <= full
    && Within(Running(pods), Pressing(pods), At(total, full), Exact(pods, base, mult),
              At(base, full), Product(base, mult), Unit(base, mult))
  }

  /** For `n` running pods: the bid lies between n times the base bid and the exact sum, the exact sum
      is at most n times the exact urgent bid, and what the cutting loses is less than one unit for each
      urgent pod. */
  lemma {:induction false} BidBounds(pods: seq<Pod>, base: Decimal, mult: Decimal)
    requires AtLeastOne(mult)
    ensures Bounded(pods, Total(pods, base, mult), base, mult)
  {
    if pods == [] {
      ZeroBid(base, mult);
    } else {
      var before := pods[..|pods| - 1];
      BidBounds(before, base, mult);
      if Counts(pods[|pods| - 1]) {
        BidStep(before, pods[|pods| - 1], Total(before, base, mult), base, mult);
        assert before + [pods[|pods| - 1]] == pods;
      }
    }
  }

  lemma BidStep(before: seq<Pod>, p: Pod, rest: Decimal, base: Decimal, mult: Decimal)
    requires AtLeastOne(mult) && Bounded(before, rest, base, mult) && Counts(p)
    ensures Bounded(before + [p], Add(rest, PodBid(p, base, mult)), base, mult)
  {
    MulBounds(base, mult);
    AddIsExact(rest, PodBid(p, base, mult), FullScale(base, mult));
    OneMorePod(before, p, base, mult);
    if Urgent(p) {
      UrgentStep(before, p, rest, base, mult);
    } else {
      PlainStep(before, p, rest, base, mult);
    }
  }

  lemma OneMorePod(before: seq<Pod>, p: Pod, base: Decimal, mult: Decimal)
    requires Counts(p)
    ensures Running(before + [p]) == Running(before) + 1
    ensures Pressing(before + [p]) == Pressing(before) + (if Urgent(p) then 1 else 0)
    ensures Exact(before + [p], base, mult)
         == Exact(before, base, mult) + (if Urgent(p) then Product(base, mult) else At(base, FullScale(base, mult)))
  {
    var pods := before + [p];
    assert pods[..|pods| - 1] == before && pods[|pods| - 1] == p;
  }

  lemma UrgentStep(before: seq<Pod>, p: Pod, rest: Decimal, base: Decimal, mult: Decimal)
    requires AtLeastOne(mult) && Bounded(before, rest, base, mult) && Counts(p) && Urgent(p)
    ensures var full := FullScale(base, mult);
      Within(Running(before) + 1, Pressing(before) + 1, At(rest, full) + At(Mul(base, mult), full),
             Exact(before, base, mult) + Product(base, mult), At(base, full), Product(base, mult), Unit(base, mult))
  {
    var full := FullScale(base, mult);
    MulBounds(base, mult);
    WithinUrgent(Running(before), Pressing(before), At(rest, full), Exact(before, base, mult),
                 At(Mul(base, mult), full), At(base, full), Product(base, mult), Unit(base, mult));
  }

  lemma PlainStep(before: seq<Pod>, p: Pod, rest: Decimal, base: Decimal, mult: Decimal)
    requires AtLeastOne(mult) && Bounded(before, rest, base, mult) && Counts(p) && !Urgent(p)
    ensures var full := FullScale(base, mult);
      Within(Running(before) + 1, Pressing(before), At(rest, full) + At(base, full),
             Exact(before, base, mult) + At(base, full), At(base, full), Product(base, mult), Unit(base, mult))
  {
    var full := FullScale(base, mult);
    MulBounds(base, mult);
    WithinPlain(Running(before), Pressing(before), At(rest, full), Exact(before, base, mult),
                At(base, full), Product(base, mult), Unit(base, mult));
  }

  /** Hence the bid falls short of the exact sum by less than n units in the last place. */
  lemma CutBelowRunning(pods: seq<Pod>, base: Decimal, mult: Decimal)
    requires AtLeastOne(mult) && Running(pods) > 0
    ensures Total(pods, base, mult).scale <= FullScale(base, mult)
    ensures Exact(pods, base, mult) - At(Total(pods, base, mult), FullScale(base, mult))
          < Running(pods) * Unit(base, mult)
  {
    BidBounds(pods, base, mult);
    FewerPressing(pods);
    Loss(Pressing(pods), Running(pods), Unit(base, mult));
  }

  lemma ZeroBid(base: Decimal, mult: Decimal)
    ensures At(Decimal(0, 0), FullScale(base, mult)) == 0
  {
  }

  lemma Loss(p: nat, n: nat, unit: nat)
    requires p <= n && unit >= 1
    ensures n > 0 ==> p * (unit - 1) < n * unit
  {
    MulMono(unit, p, n);
    assert p * (unit - 1) == unit * p - p;
    if n > 0 && p == 0 {
      MulAtLeast(unit, n);
    }
  }
}
