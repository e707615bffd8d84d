/** Choosing one price per model from the models.dev provider catalogue: a greedy
    pass over the providers in sorted order with an approximate comparison that
    is not transitive. Prices are reals. */
module ModelsDev {
  import opened Common

  /** A JSON number that may be absent, or not finite after decoding. */
  datatype Number = Missing | NotFinite | Finite(value: real)

  datatype Cost = Cost(input: Number, output: Number, cacheRead: Number)

  datatype Candidate = Candidate(provider: string, input: real, output: Option<real>, cacheRead: Option<real>)

  predicate ValidCost(n: Number) {
    n.Finite? && n.value >= 0.0
  }

  function BuildCandidate(provider: string, cost: Cost): (c: Option<Candidate>)
    ensures c.Some? ==> c.value.provider == provider && c.value.input >= 0.0
    ensures c.Some? && c.value.input == 0.0 && c.value.output.Some? ==> c.value.output.value == 0.0
  {
    if !ValidCost(cost.input) then None
    else if !cost.output.Missing? && !ValidCost(cost.output) then None
    else if cost.input.value == 0.0 && !cost.output.Missing? && cost.output.value > 0.0 then None
    else Some(Candidate(provider, cost.input.value,
                        if cost.output.Missing? then None else Some(cost.output.value),
                        if ValidCost(cost.cacheRead) then Some(cost.cacheRead.value) else None))
  }

  predicate ShouldReplace(current: Candidate, next: Candidate) {
    if (current.input > 0.0) != (next.input > 0.0) then next.input > 0.0
    else if next.input > 0.0 && !NearlyEqual(next.input, current.input) then next.input < current.input
    else Less(next.provider, current.provider)
  }

  /** An offer is usable exactly if its input price is a number that is not negative, its
      output price is missing or such a number, and it is not free input with paid output.
      Its prices are carried over, a senseless cache price as none. */
  lemma UsableOffers(provider: string, cost: Cost)
    ensures var c := BuildCandidate(provider, cost);
            && (c.Some? <==>
                && cost.input.Finite? && cost.input.value >= 0.0 && !cost.output.NotFinite?
                && (cost.output.Finite? ==>
                      cost.output.value == 0.0 || (cost.output.value > 0.0 && cost.input.value != 0.0)))
            && (c.Some? ==>
                && c.value.input == cost.input.value
                && c.value.output == (if cost.output.Finite? then Some(cost.output.value) else None)
                && c.value.cacheRead == if cost.cacheRead.Finite? && !(cost.cacheRead.value < 0.0)
                                        then Some(cost.cacheRead.value) else None)
  {
  }

  /** Which of two offers wins: the paid one over the free one, then the one cheaper by a
      billionth or more, then the one whose provider comes first. */
  lemma ReplacementRule(current: Candidate, next: Candidate)
    requires current.input >= 0.0 && next.input >= 0.0
    ensures ShouldReplace(current, next) <==>
            if current.input == 0.0 && next.input == 0.0 then Less(next.provider, current.provider)
            else if current.input == 0.0 || next.input == 0.0 then current.input == 0.0
            else next.input - current.input <= -0.000000001
                 || (next.input - current.input < 0.000000001 && Less(next.provider, current.provider))
  {
  }

  // ---------- sorting strings ----------

  predicate Less(a: string, b: string) {
    b != "" && (a == "" || a[0] < b[0] || (a[0] == b[0] && Less(a[1..], b[1..])))
  }

  lemma {:induction false} LessIsOrder(a: string, b: string)
    ensures !(Less(a, b) && Less(b, a)) && !Less(a, a)
    ensures a == b || Less(a, b) || Less(b, a)
  {
    if a != "" && b != "" {
      LessIsOrder(a[1..], b[1..]);
      assert a == [a[0]] + a[1..] && b == [b[0]] + b[1..];
    }
    if a != "" {
      LessIsOrder(a[1..], a[1..]);
    }
  }

  lemma {:induction false} LessTransitive(a: string, b: string, c: string)
    requires Less(a, b) && Less(b, c)
    ensures Less(a, c)
  {
    if a != "" && a[0] == b[0] == c[0] {
      LessTransitive(a[1..], b[1..], c[1..]);
    }
  }

  predicate Ascending(s: seq<string>) {
    forall i, j :: 0 <= i < j < |s| ==> Less(s[i], s[j])
  }

  ghost predicate Lists(s: seq<string>, keys: set<string>) {
    Ascending(s) && forall k :: k in s <==> k in keys
  }

  /** A set of strings has one ascending listing, however it is iterated. */
  lemma {:induction false} ListingIsUnique(s: seq<string>, t: seq<string>, keys: set<string>)
    requires Lists(s, keys) && Lists(t, keys)
    ensures s == t
  {
    assert (s != [] ==> s[0] in s) && (t != [] ==> t[0] in t);
    if keys != {} {
      assert exists k :: k in keys;
      assert s != [] && t != [];
      assert s[0] in keys && t[0] in keys;
      assert s[0] in t && t[0] in s;
      LessIsOrder(s[0], t[0]);
      assert s[0] == t[0];
      TailLists(s, keys);
      TailLists(t, keys);
      ListingIsUnique(s[1..], t[1..], keys - {s[0]});
    }
  }

  lemma TailLists(s: seq<string>, keys: set<string>)
    requires Lists(s, keys) && s != []
    ensures Lists(s[1..], keys - {s[0]})
  {
    LessIsOrder(s[0], s[0]);
    forall k ensures k in s[1..] <==> k in keys - {s[0]} {
      assert k in s <==> k == s[0] || k in s[1..];
    }
  }

  /** Collects the keys in any order and sorts them by insertion. */
  method SortedKeys(keys: set<string>) returns (s: seq<string>)
    ensures Lists(s, keys)
  {
    s := [];
    var pending := keys;
    while pending != {}
      invariant pending <= keys && Lists(s, keys - pending)
      decreases pending
    {
      var k :| k in pending;
      s := Insert(s, k);
      pending := pending - {k};
    }
  }

  method Insert(s: seq<string>, k: string) returns (r: seq<string>)
    requires Ascending(s) && k !in s
    ensures Ascending(r) && forall x :: x in r <==> x in s || x == k
  {
    var i := 0;
    while i < |s| && Less(s[i], k)
      invariant 0 <= i <= |s| && forall j :: 0 <= j < i ==> Less(s[j], k)
    {
      i := i + 1;
    }
    forall j | i <= j < |s| ensures Less(k, s[j]) {
      LessIsOrder(s[i], k);
      if i < j {
        LessTransitive(k, s[i], s[j]);
      }
    }
    r := s[..i] + [k] + s[i..];
    assert forall x :: x in r <==> x in s[..i] || x == k || x in s[i..];
    assert s == s[..i] + s[i..];
  }

  // ---------- the selection ----------

  type Catalogue = map<string, map<string, Cost>>

  function Offer(data: Catalogue, provider: string, model: string): Option<Candidate> {
    if provider in data && model in data[provider] then BuildCandidate(provider, data[provider][model]) else None
  }

  /** The candidate kept for a model after the given providers. */
  function Pick(data: Catalogue, providers: seq<string>, model: string): Option<Candidate> {
    if providers == [] then None
    else
      var kept := Pick(data, providers[..|providers| - 1], model);
      var offer := Offer(data, providers[|providers| - 1], model);
      if offer.Some? && (kept.None? || ShouldReplace(kept.value, offer.value)) then offer else kept
  }

  /** The greedy double loop over sorted providers and sorted model names. */
  method Select(data: Catalogue) returns (providers: seq<string>, selected: map<string, Candidate>)
    ensures Lists(providers, data.Keys)
    ensures forall m :: m in selected <==> Pick(data, providers, m).Some?
    ensures forall m :: m in selected ==> selected[m] == Pick(data, providers, m).value
  {
    providers := SortedKeys(data.Keys);
    selected := map[];
    for i := 0 to |providers|
      invariant forall m :: m in selected <==> Pick(data, providers[..i], m).Some?
      invariant forall m :: m in selected ==> selected[m] == Pick(data, providers[..i], m).value
    {
      assert providers[i] in data;
      assert providers[..i + 1][..i] == providers[..i];
      selected := SelectFrom(data, providers, i, selected);
    }
    assert providers[..|providers|] == providers;
  }

  method SelectFrom(data: Catalogue, providers: seq<string>, i: nat, before: map<string, Candidate>)
    returns (selected: map<string, Candidate>)
    requires i < |providers| && providers[i] in data && providers[..i + 1][..i] == providers[..i]
    requires forall m :: m in before <==> Pick(data, providers[..i], m).Some?
    requires forall m :: m in before ==> before[m] == Pick(data, providers[..i], m).value
    ensures forall m :: m in selected <==> Pick(data, providers[..i + 1], m).Some?
    ensures forall m :: m in selected ==> selected[m] == Pick(data, providers[..i + 1], m).value
  {
    var models := SortedKeys(data[providers[i]].Keys);
    selected := before;
    for j := 0 to |models|
      invariant forall m :: m !in models[..j] ==>
                  (m in selected <==> m in before) && (m in before ==> selected[m] == before[m])
      invariant forall m :: m in models[..j] ==>
                  && (m in selected <==> Pick(data, providers[..i + 1], m).Some?)
                  && (m in selected ==> selected[m] == Pick(data, providers[..i + 1], m).value)
    {
      var m := models[j];
      assert m in data[providers[i]];
      LessIsOrder(m, m);
      assert m !in models[..j];
      assert forall x :: x in models[..j + 1] <==> x in models[..j] || x == m;
      var candidate := BuildCandidate(providers[i], data[providers[i]][m]);
      if candidate.Some? && (m !in selected || ShouldReplace(selected[m], candidate.value)) {
        selected := selected[m := candidate.value];
      }
    }
    assert models[..|models|] == models;
  }

  /** What is true of the candidate kept so far, against every offer seen so far. */
  ghost predicate Best(data: Catalogue, providers: seq<string>, model: string) {
    var kept := Pick(data, providers, model);
    && (kept.None? ==> forall p :: p in providers ==> Offer(data, p, model).None?)
    && (kept.Some? ==> kept.value.provider in providers && Offer(data, kept.value.provider, model) == kept)
    && (forall p :: p in providers && Offer(data, p, model).Some? ==>
          var o := Offer(data, p, model).value;
          o.input > 0.0 ==> kept.value.input > 0.0 && kept.value.input - o.input < EPSILON)
  }

  lemma {:induction false} PickIsBest(data: Catalogue, providers: seq<string>, model: string)
    requires Ascending(providers)
    ensures Best(data, providers, model)
  {
    if providers != [] {
      var init, last := providers[..|providers| - 1], providers[|providers| - 1];
      PickIsBest(data, init, model);
      var kept, offer := Pick(data, init, model), Offer(data, last, model);
      assert forall p :: p in providers <==> p in init || p == last;
      if kept.Some? {
        LessIsOrder(kept.value.provider, last);
      }
    }
  }

  // ---------- what the selection promises ----------

  /** For every model with any valid offer some offer is kept; it has a non-zero
      price whenever one exists, and then one less than epsilon above the
      cheapest non-zero offer. */
  lemma SelectionIsNearlyCheapest(data: Catalogue, providers: seq<string>, model: string, p: string)
    requires Lists(providers, data.Keys) && Offer(data, p, model).Some?
    ensures var kept, o := Pick(data, providers, model), Offer(data, p, model).value;
            && kept.Some? && Offer(data, kept.value.provider, model) == kept
            && (o.input > 0.0 ==> kept.value.input > 0.0 && kept.value.input - o.input < EPSILON)
  {
    PickIsBest(data, providers, model);
    assert p in providers;
  }

  /** The kept prices are a function of the catalogue: any two sorted passes agree. */
  lemma SelectionIsDeterministic(data: Catalogue, providers: seq<string>, providers': seq<string>, model: string)
    requires Lists(providers, data.Keys) && Lists(providers', data.Keys)
    ensures Pick(data, providers, model) == Pick(data, providers', model)
  {
    ListingIsUnique(providers, providers', data.Keys);
  }

  /** Without the sort, ties could walk the price upward: the order matters
      because near-equality is not transitive. */
  lemma UnsortedPassDrifts()
    ensures var price := (x: real) => map["m" := Cost(Finite(x), Missing, Missing)];
            var data := map["c" := price(1.0), "b" := price(1.0000000009), "a" := price(1.0000000018)];
            var kept := Pick(data, ["c", "b", "a"], "m");
            kept.Some? && kept.value.input - 1.0 > EPSILON
  {
    var price := (x: real) => map["m" := Cost(Finite(x), Missing, Missing)];
    var data := map["c" := price(1.0), "b" := price(1.0000000009), "a" := price(1.0000000018)];
    assert ["c", "b", "a"][..2] == ["c", "b"] && ["c", "b"][..1] == ["c"] && ["c"][..0] == [];
    assert Pick(data, ["c"], "m") == Some(Candidate("c", 1.0, None, None));
    assert Pick(data, ["c", "b"], "m") == Some(Candidate("b", 1.0000000009, None, None));
    assert Pick(data, ["c", "b", "a"], "m") == Some(Candidate("a", 1.0000000018, None, None));
  }
}
