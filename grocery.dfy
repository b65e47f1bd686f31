/** The grocery aggregator `scaleIngredients` of the meal-plan service: folds
    ingredient lines into an insertion-ordered map keyed by
    `ingredient|unit`, adding `quantity * factor` and rounding to two
    decimals after every addition. */
module Grocery {
  import opened Wrappers
  import opened Seqs
  import opened Decimal

  /** One ingredient line of a recipe or of a grocery list. `extra` stands for
      any further properties the line object carries; they travel along. */
  datatype Line = Line(ingredient: string, quantity: real, unit: string, extra: map<string, string>)

  /** The aggregation key, the template string `${ingredient}|${unit}`. */
  function Key(l: Line): string {
    l.ingredient + "|" + l.unit
  }

  /** The keys occurring in a list of lines. */
  function KeySet(s: seq<Line>): set<string> {
    set l | l in s :: Key(l)
  }

  ghost predicate DistinctKeys(s: seq<Line>) {
    forall i, j :: 0 <= i < j < |s| ==> Key(s[i]) != Key(s[j])
  }

  /** Position of the line with key `k`, if any (the first one). */
  function IndexOfKey(s: seq<Line>, k: string): (r: Option<nat>)
    ensures r.Some? ==> r.value < |s| && Key(s[r.value]) == k
    ensures r.Some? ==> forall j :: 0 <= j < r.value ==> Key(s[j]) != k
    ensures r.None? ==> forall j :: 0 <= j < |s| ==> Key(s[j]) != k
  {
    FirstIndex(s, (l: Line) => Key(l) == k)
  }

  /** One run of the `forEach` callback, `amount` being `item.quantity *
      factor`: bump the entry of the item's key, or start one from a copy of
      the item with quantity 0. */
  function Step(acc: seq<Line>, item: Line, amount: real): seq<Line> {
    var found := IndexOfKey(acc, Key(item));
    if found.Some? then
      var p := found.value;
      acc[p := acc[p].(quantity := Round2(acc[p].quantity + amount))]
    else
      acc + [item.(quantity := Round2(0.0 + amount))]
  }

  /** The fold of Step over `lines`, line i contributing `amounts[i]`. */
  function Fold(lines: seq<Line>, amounts: seq<real>): seq<Line>
    requires |amounts| == |lines|
    decreases |lines|
  {
    if lines == [] then []
    else Step(Fold(lines[..|lines| - 1], amounts[..|lines| - 1]), lines[|lines| - 1], amounts[|lines| - 1])
  }

  /** What one line adds: `item.quantity * factor`. */
  function Amount(item: Line, factor: real): real {
    item.quantity * factor
  }

  /** What each line adds. */
  function Amounts(lines: seq<Line>, factor: real): (r: seq<real>)
    ensures |r| == |lines|
    ensures forall i :: 0 <= i < |lines| ==> r[i] == Amount(lines[i], factor)
  {
    seq(|lines|, i requires 0 <= i < |lines| => Amount(lines[i], factor))
  }

  /** The list `scaleIngredients(lines, factor)` returns: the map's values in
      insertion order once every line has been folded in, left to right. */
  function Aggregated(lines: seq<Line>, factor: real): seq<Line> {
    Fold(lines, Amounts(lines, factor))
  }

  /** Reference total for one key, independent of the map: starting from 0,
      each line with that key, in input order, does `q := round2(q + amount)`. */
  function KeyTotal(lines: seq<Line>, amounts: seq<real>, k: string): real
    requires |amounts| == |lines|
    decreases |lines|
  {
    if lines == [] then 0.0
    else
      var prev := KeyTotal(lines[..|lines| - 1], amounts[..|lines| - 1], k);
      if Key(lines[|lines| - 1]) == k then Round2(prev + amounts[|lines| - 1]) else prev
  }

  /** Every line on its own, its quantity replaced by its rounded amount. */
  function EachRounded(lines: seq<Line>, amounts: seq<real>): (r: seq<Line>)
    requires |amounts| == |lines|
    ensures |r| == |lines|
  {
    seq(|lines|, i requires 0 <= i < |lines| => lines[i].(quantity := Round2(amounts[i])))
  }

  /** `Array.from(aggregated.values())` for a map with insertion order `order`. */
  function Values(order: seq<string>, aggregated: map<string, Line>): (r: seq<Line>)
    requires forall j :: 0 <= j < |order| ==> order[j] in aggregated
    ensures |r| == |order|
    ensures forall j :: 0 <= j < |order| ==> r[j] == aggregated[order[j]]
  {
    seq(|order|, j requires 0 <= j < |order| && order[j] in aggregated => aggregated[order[j]])
  }

  /** The JavaScript `Map` of `scaleIngredients` as an insertion order plus a
      finite map: every key listed once, each entry stored under its own key. */
  ghost predicate OrderedMap(order: seq<string>, aggregated: map<string, Line>) {
    && (forall j :: 0 <= j < |order| ==> order[j] in aggregated && Key(aggregated[order[j]]) == order[j])
    && (forall k :: k in aggregated ==> k in order)
    && (forall a, b :: 0 <= a < b < |order| ==> order[a] != order[b])
  }

  /** `set` on a key already present keeps its position. */
  lemma SetExisting(order: seq<string>, aggregated: map<string, Line>, key: string, v: Line) returns (p: nat)
    requires OrderedMap(order, aggregated) && key in aggregated && Key(v) == key
    ensures p < |order| && IndexOfKey(Values(order, aggregated), key) == Some(p)
    ensures OrderedMap(order, aggregated[key := v])
    ensures Values(order, aggregated[key := v]) == Values(order, aggregated)[p := v]
    ensures aggregated[key] == Values(order, aggregated)[p]
  {
    p :| 0 <= p < |order| && order[p] == key;
    var acc := Values(order, aggregated);
    var q := IndexOfKey(acc, key);
    assert q.Some? && q.value == p;
  }

  /** `set` on a new key appends it. */
  lemma SetNew(order: seq<string>, aggregated: map<string, Line>, key: string, v: Line)
    requires OrderedMap(order, aggregated) && key !in aggregated && Key(v) == key
    ensures IndexOfKey(Values(order, aggregated), key) == None
    ensures OrderedMap(order + [key], aggregated[key := v])
    ensures Values(order + [key], aggregated[key := v]) == Values(order, aggregated) + [v]
  {
  }

  /** Folding one more line is one more Step. */
  lemma FoldPrefix(lines: seq<Line>, amounts: seq<real>, i: nat)
    requires |amounts| == |lines| && i < |lines|
    ensures Fold(lines[..i + 1], amounts[..i + 1]) == Step(Fold(lines[..i], amounts[..i]), lines[i], amounts[i])
  {
    assert lines[..i + 1][..i] == lines[..i];
    assert amounts[..i + 1][..i] == amounts[..i];
  }

  /** Step on a key already present updates that line in place. */
  lemma StepExisting(acc: seq<Line>, item: Line, amount: real, p: nat)
    requires IndexOfKey(acc, Key(item)) == Some(p)
    ensures Step(acc, item, amount) == acc[p := acc[p].(quantity := Round2(acc[p].quantity + amount))]
  {
  }

  /** Step on a new key appends a line. */
  lemma StepNew(acc: seq<Line>, item: Line, amount: real)
    requires IndexOfKey(acc, Key(item)) == None
    ensures Step(acc, item, amount) == acc + [item.(quantity := Round2(0.0 + amount))]
  {
  }

  /** One run of the callback on the map is one Step on its values. */
  lemma StepOnMap(order: seq<string>, aggregated: map<string, Line>, item: Line, amount: real, base: Line,
                  order': seq<string>, aggregated': map<string, Line>)
    requires OrderedMap(order, aggregated)
    requires order' == if Key(item) in aggregated then order else order + [Key(item)]
    requires base == if Key(item) in aggregated then aggregated[Key(item)] else item.(quantity := 0.0)
    requires aggregated' == aggregated[Key(item) := base.(quantity := Round2(base.quantity + amount))]
    ensures OrderedMap(order', aggregated')
    ensures Values(order', aggregated') == Step(Values(order, aggregated), item, amount)
  {
    var key := Key(item);
    var acc := Values(order, aggregated);
    if key in aggregated {
      var p := SetExisting(order, aggregated, key, aggregated'[key]);
      StepExisting(acc, item, amount, p);
    } else {
      SetNew(order, aggregated, key, aggregated'[key]);
      StepNew(acc, item, amount);
    }
  }

  /** `scaleIngredients` of mealPlanService.js. */
  method ScaleIngredients(lines: seq<Line>, factor: real) returns (result: seq<Line>)
    ensures result == Aggregated(lines, factor)
  {
    var order: seq<string> := [];
    var aggregated: map<string, Line> := map[];
    ghost var amounts := Amounts(lines, factor);
    var i := 0;
    while i < |lines|
      invariant 0 <= i <= |lines|
      invariant OrderedMap(order, aggregated)
      invariant Values(order, aggregated) == Fold(lines[..i], amounts[..i])
    {
      var item := lines[i];
      var key := Key(item);
      var amount := Amount(item, factor);
      assert amounts[i] == amount;
      ghost var order0, aggregated0 := order, aggregated;
      var current := if key in aggregated then aggregated[key] else item.(quantity := 0.0);
      ghost var base := current;
      current := current.(quantity := Round2(current.quantity + amount));
      if key !in aggregated {
        order := order + [key];
      }
      aggregated := aggregated[key := current];
      StepOnMap(order0, aggregated0, item, amount, base, order, aggregated);
      FoldPrefix(lines, amounts, i);
      i := i + 1;
    }
    assert lines[..i] == lines;
    assert amounts[..i] == amounts;
    result := Values(order, aggregated);
  }

  // ---------------------------------------------------------------------
  // Key bookkeeping

  lemma KeySetSnoc(s: seq<Line>, x: Line)
    ensures KeySet(s + [x]) == KeySet(s) + {Key(x)}
  {
    assert forall l :: l in s + [x] <==> l in s || l == x;
  }

  lemma KeySetUpdate(s: seq<Line>, p: nat, v: Line)
    requires p < |s| && Key(v) == Key(s[p])
    ensures KeySet(s[p := v]) == KeySet(s)
  {
    var t := s[p := v];
    forall k | k in KeySet(s) ensures k in KeySet(t) {
      var j :| 0 <= j < |s| && Key(s[j]) == k;
      assert Key(t[j]) == k;
    }
    forall k | k in KeySet(t) ensures k in KeySet(s) {
      var j :| 0 <= j < |t| && Key(t[j]) == k;
      assert Key(s[j]) == k;
    }
  }

  lemma KeySetIndex(s: seq<Line>, k: string)
    ensures k in KeySet(s) <==> IndexOfKey(s, k).Some?
  {
    if IndexOfKey(s, k).Some? {
      assert s[IndexOfKey(s, k).value] in s;
    }
  }

  lemma IndexOfKeySnoc(s: seq<Line>, x: Line, k: string)
    ensures IndexOfKey(s + [x], k) ==
      if IndexOfKey(s, k).Some? then IndexOfKey(s, k)
      else if Key(x) == k then Some(|s|)
      else None
  {
    var t := s + [x];
    var r := IndexOfKey(t, k);
    var q := IndexOfKey(s, k);
    if q.Some? {
      assert t[q.value] == s[q.value];
      assert r.Some? && r.value <= q.value;
      assert r.value < |s| ==> t[r.value] == s[r.value];
    } else if Key(x) == k {
      assert t[|s|] == x;
      assert forall j :: 0 <= j < |s| ==> t[j] == s[j];
    } else {
      assert forall j :: 0 <= j < |t| ==> Key(t[j]) != k by {
        assert forall j :: 0 <= j < |s| ==> t[j] == s[j];
      }
    }
  }

  lemma KeyTotalAbsent(lines: seq<Line>, amounts: seq<real>, k: string)
    requires |amounts| == |lines| && k !in KeySet(lines)
    ensures KeyTotal(lines, amounts, k) == 0.0
  {
    if lines != [] {
      var n := |lines| - 1;
      assert lines == lines[..n] + [lines[n]];
      KeySetSnoc(lines[..n], lines[n]);
      KeyTotalAbsent(lines[..n], amounts[..n], k);
    }
  }

  // ---------------------------------------------------------------------
  // What `scaleIngredients` returns

  /** The output has one line per distinct key of the input, and the same
      keys: no key is lost, none is invented, none is repeated. */
  lemma {:induction false} FoldKeys(lines: seq<Line>, amounts: seq<real>)
    requires |amounts| == |lines|
    ensures DistinctKeys(Fold(lines, amounts))
    ensures |Fold(lines, amounts)| <= |lines|
    ensures KeySet(Fold(lines, amounts)) == KeySet(lines)
  {
    if lines != [] {
      var n := |lines| - 1;
      var init, x, a := lines[..n], lines[n], amounts[n];
      FoldKeys(init, amounts[..n]);
      var acc := Fold(init, amounts[..n]);
      assert lines == init + [x];
      KeySetSnoc(init, x);
      var found := IndexOfKey(acc, Key(x));
      if found.Some? {
        var p := found.value;
        StepExisting(acc, x, a, p);
        KeySetUpdate(acc, p, acc[p].(quantity := Round2(acc[p].quantity + a)));
        KeySetIndex(acc, Key(x));
      } else {
        StepNew(acc, x, a);
        KeySetSnoc(acc, x.(quantity := Round2(0.0 + a)));
      }
    }
  }

  /** Each line of `r` is the first line of `lines` with its key, only its
      quantity replaced. */
  ghost predicate FromFirst(lines: seq<Line>, r: seq<Line>) {
    forall j :: 0 <= j < |r| ==>
      IndexOfKey(lines, Key(r[j])).Some? &&
      r[j] == lines[IndexOfKey(lines, Key(r[j])).value].(quantity := r[j].quantity)
  }

  /** The keys of `r` come in the order of their first appearance in `lines`. */
  ghost predicate FirstSeenOrder(lines: seq<Line>, r: seq<Line>) {
    forall a, b :: 0 <= a < b < |r| ==>
      IndexOfKey(lines, Key(r[a])).Some? && IndexOfKey(lines, Key(r[b])).Some? &&
      IndexOfKey(lines, Key(r[a])).value < IndexOfKey(lines, Key(r[b])).value
  }

  lemma IndexOfKeyKept(init: seq<Line>, x: Line, k: string)
    requires k in KeySet(init)
    ensures IndexOfKey(init + [x], k) == IndexOfKey(init, k)
    ensures IndexOfKey(init, k).Some? && IndexOfKey(init, k).value < |init|
    ensures (init + [x])[IndexOfKey(init, k).value] == init[IndexOfKey(init, k).value]
  {
    KeySetIndex(init, k);
    IndexOfKeySnoc(init, x, k);
  }

  lemma IndexOfKeyAdded(init: seq<Line>, x: Line)
    requires Key(x) !in KeySet(init)
    ensures IndexOfKey(init + [x], Key(x)) == Some(|init|)
  {
    KeySetIndex(init, Key(x));
    IndexOfKeySnoc(init, x, Key(x));
  }

  lemma FromFirstStep(init: seq<Line>, acc: seq<Line>, x: Line, a: real)
    requires FromFirst(init, acc) && KeySet(acc) == KeySet(init)
    ensures FromFirst(init + [x], Step(acc, x, a))
  {
    var r := Step(acc, x, a);
    var found := IndexOfKey(acc, Key(x));
    if found.Some? {
      StepExisting(acc, x, a, found.value);
      FromFirstKept(init, acc, x, r);
    } else {
      StepNew(acc, x, a);
      KeySetIndex(acc, Key(x));
      FromFirstAdded(init, acc, x, r[|acc|]);
    }
  }

  lemma FromFirstKept(init: seq<Line>, acc: seq<Line>, x: Line, r: seq<Line>)
    requires FromFirst(init, acc) && KeySet(acc) == KeySet(init)
    requires |r| == |acc|
    requires forall j :: 0 <= j < |r| ==> r[j] == acc[j].(quantity := r[j].quantity)
    ensures FromFirst(init + [x], r)
  {
    forall j | 0 <= j < |r|
      ensures IndexOfKey(init + [x], Key(r[j])).Some? &&
        r[j] == (init + [x])[IndexOfKey(init + [x], Key(r[j])).value].(quantity := r[j].quantity)
    {
      assert Key(r[j]) == Key(acc[j]) && acc[j] in acc;
      IndexOfKeyKept(init, x, Key(acc[j]));
    }
  }

  lemma FromFirstAdded(init: seq<Line>, acc: seq<Line>, x: Line, y: Line)
    requires FromFirst(init, acc) && KeySet(acc) == KeySet(init)
    requires Key(x) !in KeySet(init) && y == x.(quantity := y.quantity)
    ensures FromFirst(init + [x], acc + [y])
  {
    FromFirstKept(init, acc, x, acc);
    IndexOfKeyAdded(init, x);
    var r := acc + [y];
    forall j | 0 <= j < |r|
      ensures IndexOfKey(init + [x], Key(r[j])).Some? &&
        r[j] == (init + [x])[IndexOfKey(init + [x], Key(r[j])).value].(quantity := r[j].quantity)
    {
      if j < |acc| {
        assert r[j] == acc[j];
      } else {
        assert Key(r[j]) == Key(x);
      }
    }
  }

  lemma FirstSeenOrderStep(init: seq<Line>, acc: seq<Line>, x: Line, a: real)
    requires FirstSeenOrder(init, acc) && FromFirst(init, acc) && KeySet(acc) == KeySet(init)
    ensures FirstSeenOrder(init + [x], Step(acc, x, a))
  {
    var r := Step(acc, x, a);
    var found := IndexOfKey(acc, Key(x));
    if found.Some? {
      StepExisting(acc, x, a, found.value);
      FirstSeenOrderKept(init, acc, x, r);
    } else {
      StepNew(acc, x, a);
      KeySetIndex(acc, Key(x));
      FirstSeenOrderAdded(init, acc, x, r[|acc|]);
    }
  }

  lemma FirstSeenOrderKept(init: seq<Line>, acc: seq<Line>, x: Line, r: seq<Line>)
    requires FirstSeenOrder(init, acc) && KeySet(acc) == KeySet(init)
    requires |r| == |acc|
    requires forall j :: 0 <= j < |r| ==> Key(r[j]) == Key(acc[j])
    ensures FirstSeenOrder(init + [x], r)
  {
    forall a, b | 0 <= a < b < |r|
      ensures IndexOfKey(init + [x], Key(r[a])).Some? && IndexOfKey(init + [x], Key(r[b])).Some? &&
        IndexOfKey(init + [x], Key(r[a])).value < IndexOfKey(init + [x], Key(r[b])).value
    {
      assert acc[a] in acc && acc[b] in acc;
      IndexOfKeyKept(init, x, Key(acc[a]));
      IndexOfKeyKept(init, x, Key(acc[b]));
    }
  }

  lemma FirstSeenOrderAdded(init: seq<Line>, acc: seq<Line>, x: Line, y: Line)
    requires FirstSeenOrder(init, acc) && KeySet(acc) == KeySet(init)
    requires Key(x) !in KeySet(init) && Key(y) == Key(x)
    ensures FirstSeenOrder(init + [x], acc + [y])
  {
    IndexOfKeyAdded(init, x);
    var r := acc + [y];
    forall a, b | 0 <= a < b < |r|
      ensures IndexOfKey(init + [x], Key(r[a])).Some? && IndexOfKey(init + [x], Key(r[b])).Some? &&
        IndexOfKey(init + [x], Key(r[a])).value < IndexOfKey(init + [x], Key(r[b])).value
    {
      assert r[a] == acc[a] && acc[a] in acc;
      IndexOfKeyKept(init, x, Key(acc[a]));
      assert IndexOfKey(init + [x], Key(r[a])) == IndexOfKey(init, Key(acc[a]));
      if b == |acc| {
        assert IndexOfKey(init + [x], Key(r[b])) == Some(|init|);
      } else {
        assert r[b] == acc[b] && acc[b] in acc;
        IndexOfKeyKept(init, x, Key(acc[b]));
        assert IndexOfKey(init, Key(acc[a])).value < IndexOfKey(init, Key(acc[b])).value;
      }
    }
  }

  /** Each output line is the first input line with its key, only its
      quantity replaced, and the output lists keys in order of first
      appearance in the input. */
  lemma {:induction false} FoldFirstOccurrence(lines: seq<Line>, amounts: seq<real>)
    requires |amounts| == |lines|
    ensures FromFirst(lines, Fold(lines, amounts))
    ensures FirstSeenOrder(lines, Fold(lines, amounts))
  {
    if lines != [] {
      var n := |lines| - 1;
      FoldFirstOccurrence(lines[..n], amounts[..n]);
      FoldKeys(lines[..n], amounts[..n]);
      assert lines == lines[..n] + [lines[n]];
      FromFirstStep(lines[..n], Fold(lines[..n], amounts[..n]), lines[n], amounts[n]);
      FirstSeenOrderStep(lines[..n], Fold(lines[..n], amounts[..n]), lines[n], amounts[n]);
    }
  }

  /** Each output quantity is the per-key running total: `round2` after
      every addition, not once at the end. */
  lemma {:induction false} FoldTotals(lines: seq<Line>, amounts: seq<real>)
    requires |amounts| == |lines|
    ensures forall j :: 0 <= j < |Fold(lines, amounts)| ==>
      Fold(lines, amounts)[j].quantity == KeyTotal(lines, amounts, Key(Fold(lines, amounts)[j]))
  {
    if lines != [] {
      var n := |lines| - 1;
      var init, x, a := lines[..n], lines[n], amounts[n];
      FoldTotals(init, amounts[..n]);
      FoldKeys(init, amounts[..n]);
      var acc := Fold(init, amounts[..n]);
      var r := Fold(lines, amounts);
      var found := IndexOfKey(acc, Key(x));
      if found.Some? {
        var p := found.value;
        StepExisting(acc, x, a, p);
        assert forall j :: 0 <= j < |r| && j != p ==> r[j] == acc[j] && Key(acc[j]) != Key(x);
      } else {
        StepNew(acc, x, a);
        KeySetIndex(acc, Key(x));
        KeyTotalAbsent(init, amounts[..n], Key(x));
        assert forall j :: 0 <= j < |acc| ==> r[j] == acc[j];
      }
    }
  }

  /** Every output quantity has at most two decimals. */
  lemma {:induction false} FoldRounded(lines: seq<Line>, amounts: seq<real>)
    requires |amounts| == |lines|
    ensures forall j :: 0 <= j < |Fold(lines, amounts)| ==> IsTwoDecimal(Fold(lines, amounts)[j].quantity)
  {
    if lines != [] {
      var n := |lines| - 1;
      var init, x, a := lines[..n], lines[n], amounts[n];
      FoldRounded(init, amounts[..n]);
      var acc := Fold(init, amounts[..n]);
      var found := IndexOfKey(acc, Key(x));
      if found.Some? {
        StepExisting(acc, x, a, found.value);
      } else {
        StepNew(acc, x, a);
      }
    }
  }

  /** With pairwise distinct keys nothing merges: every line is scaled and
      rounded on its own, in place. */
  lemma {:induction false} FoldDistinct(lines: seq<Line>, amounts: seq<real>)
    requires |amounts| == |lines| && DistinctKeys(lines)
    ensures Fold(lines, amounts) == EachRounded(lines, amounts)
  {
    if lines != [] {
      var n := |lines| - 1;
      var init, x, a := lines[..n], lines[n], amounts[n];
      DistinctInit(lines);
      FoldDistinct(init, amounts[..n]);
      var acc := Fold(init, amounts[..n]);
      FoldKeys(init, amounts[..n]);
      KeySetIndex(acc, Key(x));
      StepNew(acc, x, a);
      EachRoundedSnoc(lines, amounts);
    }
  }

  lemma DistinctInit(lines: seq<Line>)
    requires |lines| > 0 && DistinctKeys(lines)
    ensures DistinctKeys(lines[..|lines| - 1])
    ensures Key(lines[|lines| - 1]) !in KeySet(lines[..|lines| - 1])
  {
    var n := |lines| - 1;
    var init := lines[..n];
    forall i, j | 0 <= i < j < |init| ensures Key(init[i]) != Key(init[j]) {
      assert init[i] == lines[i] && init[j] == lines[j];
    }
    forall l | l in init ensures Key(l) != Key(lines[n]) {
      var i :| 0 <= i < n && init[i] == l;
      assert lines[i] == l;
    }
  }

  lemma EachRoundedSnoc(lines: seq<Line>, amounts: seq<real>)
    requires |amounts| == |lines| > 0
    ensures var n := |lines| - 1;
      EachRounded(lines, amounts) ==
        EachRounded(lines[..n], amounts[..n]) + [lines[n].(quantity := Round2(0.0 + amounts[n]))]
  {
    var n := |lines| - 1;
    var e, e' := EachRounded(lines, amounts), EachRounded(lines[..n], amounts[..n]);
    forall j | 0 <= j < n ensures e[j] == e'[j] {
      assert lines[..n][j] == lines[j] && amounts[..n][j] == amounts[j];
    }
  }

  /** Scaling linearity: a recipe whose keys are distinct scaled by `factor`
      has each quantity `round2(quantity * factor)`. */
  lemma ScaleDistinct(lines: seq<Line>, factor: real)
    requires DistinctKeys(lines)
    ensures |Aggregated(lines, factor)| == |lines|
    ensures forall i :: 0 <= i < |lines| ==>
      Aggregated(lines, factor)[i] == lines[i].(quantity := Round2(Amount(lines[i], factor)))
  {
    FoldDistinct(lines, Amounts(lines, factor));
  }

  /** Idempotence: a list with distinct keys and two-decimal quantities comes
      back unchanged from `scaleIngredients(list, 1)`. */
  lemma ScaleIdempotent(lines: seq<Line>)
    requires DistinctKeys(lines)
    requires forall i :: 0 <= i < |lines| ==> IsTwoDecimal(lines[i].quantity)
    ensures Aggregated(lines, 1.0) == lines
  {
    ScaleDistinct(lines, 1.0);
    forall i | 0 <= i < |lines| ensures Round2(Amount(lines[i], 1.0)) == lines[i].quantity {
      Round2Fixes(lines[i].quantity);
    }
  }

  /** Aggregating an aggregated list again (the final step of
      `buildGroceryList`) changes nothing. */
  lemma AggregateTwice(lines: seq<Line>, factor: real)
    ensures Aggregated(Aggregated(lines, factor), 1.0) == Aggregated(lines, factor)
  {
    FoldKeys(lines, Amounts(lines, factor));
    FoldRounded(lines, Amounts(lines, factor));
    ScaleIdempotent(Aggregated(lines, factor));
  }

  /** The key is a joined string, so an ingredient or unit containing `|`
      can merge two different (ingredient, unit) pairs. */
  lemma KeyCollision()
    ensures
      var a := Line("a|b", 1.0, "c", map[]);
      var b := Line("a", 2.0, "b|c", map[]);
      (a.ingredient, a.unit) != (b.ingredient, b.unit) &&
      Aggregated([a, b], 1.0) == [a.(quantity := 3.0)]
  {
    var a := Line("a|b", 1.0, "c", map[]);
    var b := Line("a", 2.0, "b|c", map[]);
    assert Key(a) == Key(b);
    assert [a, b][..1] == [a];
    assert [a][..0] == [];
    var am := Amounts([a, b], 1.0);
    assert am[0] == 1.0 && am[1] == 2.0;
    assert am[..1][..0] == [];
    Round2Fixes(1.0);
    Round2Fixes(3.0);
    assert Fold([a], am[..1]) == Step([], a, 1.0) == [a];
    assert Step([a], b, 2.0) == [a.(quantity := 3.0)];
  }
}
