/** Reconciling a channel's model list with the list its upstream reports:
    order-preserving set algebra, the detect and apply steps built from it, and
    what happens when they are repeated. Regular-expression rules match by an
    arbitrary predicate on (pattern, model name). */
module Upstream {
  import opened Common
  import opened Text

  type Matcher = (string, string) -> bool

  // ---------- order-preserving set algebra ----------

  function Filter(s: seq<string>, keep: string -> bool): (r: seq<string>)
    ensures forall x :: x in r <==> x in s && keep(x)
  {
    if s == [] then []
    else if keep(s[|s| - 1]) then Filter(s[..|s| - 1], keep) + [s[|s| - 1]]
    else Filter(s[..|s| - 1], keep)
  }

  function Outside(s: seq<string>): string -> bool {
    x => x !in s
  }

  function Inside(s: seq<string>): string -> bool {
    x => x in s
  }

  predicate NoDuplicates(s: seq<string>) {
    forall i, j :: 0 <= i < j < |s| ==> s[i] != s[j]
  }

  /** No blanks, no surrounding space, no duplicates. */
  predicate Clean(s: seq<string>) {
    NoDuplicates(s) && forall x :: x in s ==> x != "" && Trimmed(x)
  }

  /** Trim, drop blanks, keep first occurrences. */
  function Normalize(models: seq<string>): (r: seq<string>)
    ensures Clean(r)
  {
    if models == [] then []
    else
      var before, trimmed := Normalize(models[..|models| - 1]), TrimSpace(models[|models| - 1]);
      if trimmed == "" || trimmed in before then before else before + [trimmed]
  }

  function Merge(base: seq<string>, appended: seq<string>): seq<string> {
    var b := Normalize(base);
    b + Filter(Normalize(appended), Outside(b))
  }

  function Subtract(base: seq<string>, removed: seq<string>): seq<string> {
    var gone := Normalize(removed);
    Filter(Normalize(base), Outside(gone))
  }

  function Intersect(base: seq<string>, allowed: seq<string>): seq<string> {
    var kept := Normalize(allowed);
    Filter(Normalize(base), Inside(kept))
  }

  /** The loop that appends what it has not seen yet. */
  method MergeModelNames(base: seq<string>, appended: seq<string>) returns (merged: seq<string>)
    ensures merged == Merge(base, appended)
  {
    var b, a := Normalize(base), Normalize(appended);
    merged := b;
    var seen := set x | x in b;
    for i := 0 to |a|
      invariant seen == set x | x in merged
      invariant merged == b + Filter(a[..i], Outside(b))
    {
      assert a[..i + 1][..i] == a[..i];
      assert a[i] !in a[..i];
      if a[i] !in seen {
        seen := seen + {a[i]};
        merged := merged + [a[i]];
      }
    }
    assert a[..|a|] == a;
  }

  function ApplySelected(origin: seq<string>, add: seq<string>, remove: seq<string>): seq<string> {
    var a := Normalize(add);
    Subtract(Merge(origin, a), Subtract(Normalize(remove), a))
  }

  lemma CleanPrefix(s: seq<string>)
    requires Clean(s) && s != []
    ensures Clean(s[..|s| - 1]) && s[|s| - 1] !in s[..|s| - 1]
    ensures s[|s| - 1] != "" && Trimmed(s[|s| - 1])
  {
    var t := s[..|s| - 1];
    assert s[|s| - 1] in s && NoDuplicates(t);
    forall x | x in t ensures x != "" && Trimmed(x) {
      assert x in s;
    }
    assert Clean(t);
  }

  lemma {:induction false} FilterClean(s: seq<string>, keep: string -> bool)
    requires Clean(s)
    ensures Clean(Filter(s, keep))
  {
    if s != [] {
      CleanPrefix(s);
      FilterClean(s[..|s| - 1], keep);
    }
  }

  lemma {:induction false} FilterSame(s: seq<string>, p: string -> bool, q: string -> bool)
    requires forall x :: x in s ==> p(x) == q(x)
    ensures Filter(s, p) == Filter(s, q)
  {
    if s != [] {
      FilterSame(s[..|s| - 1], p, q);
    }
  }

  lemma FilterAppend(s: seq<string>, x: string, p: string -> bool)
    ensures Filter(s + [x], p) == if p(x) then Filter(s, p) + [x] else Filter(s, p)
  {
    assert (s + [x])[..|s|] == s;
  }

  lemma {:induction false} FilterConcat(s: seq<string>, t: seq<string>, p: string -> bool)
    ensures Filter(s + t, p) == Filter(s, p) + Filter(t, p)
  {
    if t == [] {
      assert s + t == s;
    } else {
      var init, last := t[..|t| - 1], t[|t| - 1];
      assert t == init + [last] && s + t == s + init + [last];
      FilterConcat(s, init, p);
      FilterAppend(init, last, p);
      FilterAppend(s + init, last, p);
      Associative(Filter(s, p), Filter(init, p), last);
    }
  }

  lemma Associative(s: seq<string>, t: seq<string>, x: string)
    ensures s + t + [x] == s + (t + [x])
  {
  }

  lemma {:induction false} FilterAll(s: seq<string>, p: string -> bool)
    requires forall x :: x in s ==> p(x)
    ensures Filter(s, p) == s
  {
    if s != [] {
      FilterAll(s[..|s| - 1], p);
    }
  }

  lemma {:induction false} NormalizeMembers(models: seq<string>, x: string)
    ensures x in Normalize(models) <==> x != "" && exists m :: m in models && TrimSpace(m) == x
  {
    if models != [] {
      var init, last := models[..|models| - 1], models[|models| - 1];
      NormalizeMembers(init, x);
      assert last in models && forall m :: m in models <==> m in init || m == last;
    }
  }

  lemma {:induction false} NormalizeFixed(models: seq<string>)
    requires Clean(models)
    ensures Normalize(models) == models
  {
    if models != [] {
      CleanPrefix(models);
      NormalizeFixed(models[..|models| - 1]);
    }
  }

  lemma ConcatClean(s: seq<string>, t: seq<string>)
    requires Clean(s) && Clean(t) && forall x :: x in t ==> x !in s
    ensures Clean(s + t)
  {
    forall i, j | 0 <= i < j < |s + t| ensures (s + t)[i] != (s + t)[j] {
      if i < |s| <= j {
        assert t[j - |s|] in t && s[i] in s;
      }
    }
  }

  lemma MergeClean(base: seq<string>, appended: seq<string>)
    ensures Clean(Merge(base, appended))
    ensures forall x :: x in Merge(base, appended) <==> x in Normalize(base) || x in Normalize(appended)
  {
    var b := Normalize(base);
    FilterClean(Normalize(appended), Outside(b));
    ConcatClean(b, Filter(Normalize(appended), Outside(b)));
  }

  lemma SubtractClean(base: seq<string>, removed: seq<string>)
    ensures Clean(Subtract(base, removed))
    ensures forall x :: x in Subtract(base, removed) <==> x in Normalize(base) && x !in Normalize(removed)
  {
    FilterClean(Normalize(base), Outside(Normalize(removed)));
  }

  lemma IntersectClean(base: seq<string>, allowed: seq<string>)
    ensures Clean(Intersect(base, allowed))
    ensures forall x :: x in Intersect(base, allowed) <==> x in Normalize(base) && x in Normalize(allowed)
  {
    FilterClean(Normalize(base), Inside(Normalize(allowed)));
  }

  /** The new model list: the survivors in their old order, then the additions in
      request order. A model that is both added and removed stays. */
  lemma SelectionOrder(origin: seq<string>, add: seq<string>, remove: seq<string>)
    ensures var o, a := Normalize(origin), Normalize(add);
            var r := Normalize(remove);
            ApplySelected(origin, add, remove) ==
            Filter(o, x => x !in r || x in a) + Filter(a, Outside(o))
    ensures Clean(ApplySelected(origin, add, remove))
  {
    var o, a, r := Normalize(origin), Normalize(add), Normalize(remove);
    var gone := Subtract(r, a);
    NormalizeFixed(a);
    NormalizeFixed(r);
    SubtractClean(r, a);
    NormalizeFixed(gone);
    MergeClean(origin, a);
    NormalizeFixed(Merge(origin, a));
    SubtractClean(Merge(origin, a), gone);
    FilterConcat(o, Filter(a, Outside(o)), Outside(gone));
    FilterSame(o, Outside(gone), x => x !in r || x in a);
    FilterAll(Filter(a, Outside(o)), Outside(gone));
  }

  // ---------- the channel ----------

  /** The fields of a channel and its settings that reconciliation reads and writes. */
  datatype View = View(models: string, detected: seq<string>, removed: seq<string>, ignored: seq<string>)

  function LocalModels(v: View): seq<string> {
    Normalize(Parse(v.models, ','))
  }

  predicate RuleHides(rule: string, name: string, matches: Matcher) {
    if "regex:" <= rule then matches(TrimSpace(rule[6..]), name) else rule == name
  }

  predicate Hidden(name: string, rules: seq<string>, matches: Matcher) {
    exists rule :: rule in rules && RuleHides(rule, name, matches)
  }

  predicate Covered(name: string, local: seq<string>, mapping: map<string, string>) {
    name in local || exists source :: source in mapping && mapping[source] == name
  }

  function PendingAdd(local: seq<string>, upstream: seq<string>, ignored: seq<string>, mapping: map<string, string>,
                      matches: Matcher): seq<string> {
    var rules := Normalize(ignored);
    var l := Normalize(local);
    Normalize(Filter(Normalize(upstream), x => !Covered(x, l, mapping) && !Hidden(x, rules, matches)))
  }

  function PendingRemove(local: seq<string>, upstream: seq<string>, mapping: map<string, string>): seq<string> {
    var u := Normalize(upstream);
    Normalize(Filter(Normalize(local), x => x !in mapping && x !in u))
  }

  /** Detection, with the additions adopted at once when `auto` is set. */
  function DetectOn(v: View, upstream: seq<string>, mapping: map<string, string>, matches: Matcher, auto: bool): View {
    var local := Parse(v.models, ',');
    var add := PendingAdd(local, upstream, v.ignored, mapping, matches);
    var remove := PendingRemove(local, upstream, mapping);
    if auto && add != [] then
      var merged := Merge(LocalModels(v), add);
      v.(models := if |merged| > |LocalModels(v)| then Join(merged, ',') else v.models, detected := [], removed := remove)
    else v.(detected := add, removed := remove)
  }

  datatype Applied = Applied(view: View, added: seq<string>, removed: seq<string>, ignored: seq<string>,
                             remaining: seq<string>, remainingRemove: seq<string>, next: seq<string>)

  function ApplyOn(v: View, addInput: seq<string>, ignoreInput: seq<string>, removeInput: seq<string>): Applied {
    var pendingAdd, pendingRemove := Normalize(v.detected), Normalize(v.removed);
    var add := Intersect(addInput, pendingAdd);
    var ignore := Intersect(ignoreInput, pendingAdd);
    var remove := Subtract(Intersect(removeInput, pendingRemove), add);
    var origin := LocalModels(v);
    var next := ApplySelected(origin, add, remove);
    var rules := Merge(v.ignored, ignore);
    var rules' := if |add| > 0 then Subtract(rules, add) else rules;
    var remaining := Subtract(pendingAdd, add + ignore);
    var remainingRemove := Subtract(pendingRemove, remove);
    Applied(View(if next != origin then Join(next, ',') else v.models, remaining, remainingRemove, rules'),
            add, remove, ignore, remaining, remainingRemove, next)
  }

  class Channel {
    var models: string
    var detected: seq<string>
    var removed: seq<string>
    var ignored: seq<string>
    var lastCheck: int
    const autoSync: bool
    const mapping: map<string, string>

    function ToView(): View
      reads this
    {
      View(models, detected, removed, ignored)
    }

    constructor (v: View, autoSync: bool, mapping: map<string, string>)
      ensures ToView() == v && this.autoSync == autoSync && this.mapping == mapping && lastCheck == 0
    {
      models, detected, removed, ignored := v.models, v.detected, v.removed, v.ignored;
      lastCheck, this.autoSync, this.mapping := 0, autoSync, mapping;
    }

    /** `fetched` is what the upstream answered, `None` when it could not be asked. */
    method CheckAndPersist(force: bool, allowAuto: bool, now: int, minInterval: int,
                           fetched: Option<seq<string>>, matches: Matcher)
      returns (checked: bool, changed: bool, autoAdded: int)
      modifies this
      ensures checked <==> (force || old(lastCheck) <= 0 || now - old(lastCheck) >= minInterval) && fetched.Some?
      ensures lastCheck == if force || old(lastCheck) <= 0 || now - old(lastCheck) >= minInterval then now else old(lastCheck)
      ensures ToView() == if checked then DetectOn(old(ToView()), fetched.value, mapping, matches, allowAuto && autoSync)
                          else old(ToView())
      ensures changed <==> autoAdded > 0
      ensures autoAdded == if checked && allowAuto && autoSync
                           then |PendingAdd(Parse(old(models), ','), fetched.value, old(ignored), mapping, matches)| else 0
    {
      if !force && lastCheck > 0 && now - lastCheck < minInterval {
        return false, false, 0;
      }
      lastCheck := now;
      if fetched.None? {
        return false, false, 0;
      }
      var local := Parse(models, ',');
      var add := PendingAdd(local, fetched.value, ignored, mapping, matches);
      var remove := PendingRemove(local, fetched.value, mapping);
      checked, changed, autoAdded := true, false, 0;
      if allowAuto && autoSync && |add| > 0 {
        var origin := Normalize(local);
        var merged := MergeModelNames(origin, add);
        NothingToMerge(local, fetched.value, ignored, mapping, matches);
        if |merged| > |origin| {
          models := Join(merged, ',');
          autoAdded, changed := |merged| - |origin|, true;
        }
        detected := [];
      } else {
        detected := add;
      }
      removed := remove;
    }

    method Apply(addInput: seq<string>, ignoreInput: seq<string>, removeInput: seq<string>, now: int)
      returns (added: seq<string>, gone: seq<string>, remaining: seq<string>, remainingRemove: seq<string>, changed: bool)
      modifies this
      ensures var r := ApplyOn(old(ToView()), addInput, ignoreInput, removeInput);
              && ToView() == r.view && lastCheck == now
              && (added, gone, remaining, remainingRemove) == (r.added, r.removed, r.remaining, r.remainingRemove)
              && (changed <==> r.next != LocalModels(old(ToView())))
    {
      var r := Resolve(ToView(), addInput, ignoreInput, removeInput);
      added, gone, remaining, remainingRemove := r.added, r.removed, r.remaining, r.remainingRemove;
      changed := LocalModels(ToView()) != r.next;
      models, detected, removed, ignored := r.view.models, r.view.detected, r.view.removed, r.view.ignored;
      lastCheck := now;
    }
  }

  /** What a request does to the stored lists, step by step. */
  method Resolve(v: View, addInput: seq<string>, ignoreInput: seq<string>, removeInput: seq<string>) returns (r: Applied)
    ensures r == ApplyOn(v, addInput, ignoreInput, removeInput)
  {
    var pendingAdd, pendingRemove := Normalize(v.detected), Normalize(v.removed);
    var added := Intersect(addInput, pendingAdd);
    var ignore := Intersect(ignoreInput, pendingAdd);
    var gone := Subtract(Intersect(removeInput, pendingRemove), added);
    var origin := LocalModels(v);
    var next := ApplySelected(origin, added, gone);
    var rules := MergeModelNames(v.ignored, ignore);
    if |added| > 0 {
      rules := Subtract(rules, added);
    }
    var remaining := Subtract(pendingAdd, added + ignore);
    var remainingRemove := Subtract(pendingRemove, gone);
    var models := v.models;
    if origin != next {
      models := Join(next, ',');
    }
    r := Applied(View(models, remaining, remainingRemove, rules), added, gone, ignore, remaining, remainingRemove, next);
  }

  // ---------- repeated detection ----------

  /** Reading back a stored clean list gives that list, provided no name has a comma. */
  lemma StoredAndRead(models: seq<string>)
    requires Clean(models) && FreeOf(models, ',')
    ensures Normalize(Parse(Join(models, ','), ',')) == models
  {
    ParseJoin(models, ',');
    NormalizeFixed(models);
    assert models != [] ==> models[0] in models && models[|models| - 1] in models;
  }

  /** Pending additions are all new, so merging them appends every one. */
  lemma NothingToMerge(local: seq<string>, upstream: seq<string>, ignored: seq<string>, mapping: map<string, string>, matches: Matcher)
    ensures var add := PendingAdd(local, upstream, ignored, mapping, matches);
            Merge(Normalize(local), add) == Normalize(local) + add
  {
    var l, add := Normalize(local), PendingAdd(local, upstream, ignored, mapping, matches);
    PendingMembers(local, upstream, ignored, mapping, matches);
    NormalizeFixed(l);
    NormalizeFixed(add);
    FilterAll(add, Outside(l));
  }

  lemma PendingMembers(local: seq<string>, upstream: seq<string>, ignored: seq<string>, mapping: map<string, string>, matches: Matcher)
    ensures forall x :: x in PendingAdd(local, upstream, ignored, mapping, matches) <==>
              x in Normalize(upstream) && !Covered(x, Normalize(local), mapping) && !Hidden(x, Normalize(ignored), matches)
    ensures forall x :: x in PendingRemove(local, upstream, mapping) <==>
              x in Normalize(local) && x !in mapping && x !in Normalize(upstream)
  {
    var rules, l, u := Normalize(ignored), Normalize(local), Normalize(upstream);
    FilterClean(u, x => !Covered(x, l, mapping) && !Hidden(x, rules, matches));
    NormalizeFixed(Filter(u, x => !Covered(x, l, mapping) && !Hidden(x, rules, matches)));
    FilterClean(l, x => x !in mapping && x !in u);
    NormalizeFixed(Filter(l, x => x !in mapping && x !in u));
  }

  lemma {:induction false} NormalizeFree(models: seq<string>, c: char)
    requires FreeOf(models, c)
    ensures FreeOf(Normalize(models), c)
  {
    if models != [] {
      assert models[|models| - 1] in models;
      assert forall m :: m in models[..|models| - 1] ==> m in models;
      NormalizeFree(models[..|models| - 1], c);
    }
  }

  /** The state after detecting and then applying everything that was detected. */
  function DetectAndApplyAll(v: View, upstream: seq<string>, mapping: map<string, string>, matches: Matcher): Applied {
    var v1 := DetectOn(v, upstream, mapping, matches, false);
    ApplyOn(v1, v1.detected, [], v1.removed)
  }

  lemma ApplyAllResult(v: View, upstream: seq<string>, mapping: map<string, string>, matches: Matcher)
    ensures var r := DetectAndApplyAll(v, upstream, mapping, matches);
            var local := Parse(v.models, ',');
            var add, remove := PendingAdd(local, upstream, v.ignored, mapping, matches), PendingRemove(local, upstream, mapping);
            && Clean(r.next)
            && (forall x :: x in r.next <==> (x in LocalModels(v) && x !in remove) || x in add)
            && (forall x :: x in Normalize(r.view.ignored) <==> x in Normalize(v.ignored) && x !in add)
            && r.view.models == (if r.next != LocalModels(v) then Join(r.next, ',') else v.models)
  {
    var local := Parse(v.models, ',');
    var add, remove := PendingAdd(local, upstream, v.ignored, mapping, matches), PendingRemove(local, upstream, mapping);
    PendingMembers(local, upstream, v.ignored, mapping, matches);
    NormalizeFixed(add);
    NormalizeFixed(remove);
    NormalizeFixed(LocalModels(v));
    FilterAll(add, Inside(add));
    FilterAll(remove, Inside(remove));
    FilterAll(remove, Outside(add));
    assert Intersect(add, add) == add && Intersect(remove, remove) == remove && Subtract(remove, add) == remove;
    SelectionOrder(LocalModels(v), add, remove);
    MergeClean(v.ignored, []);
    var rules := Merge(v.ignored, Intersect([], add));
    assert Intersect([], add) == [];
    NormalizeFixed(rules);
    SubtractClean(rules, add);
    NormalizeFixed(Subtract(rules, add));
  }

  /** Every upstream model that only the ignore list keeps out is still kept out
      when the rules that are themselves pending additions are dropped. */
  ghost predicate RulesSurvive(v: View, upstream: seq<string>, mapping: map<string, string>, matches: Matcher) {
    var add := PendingAdd(Parse(v.models, ','), upstream, v.ignored, mapping, matches);
    forall u :: u in Normalize(upstream) && !Covered(u, LocalModels(v), mapping) && Hidden(u, Normalize(v.ignored), matches) ==>
      exists rule :: rule in Normalize(v.ignored) && rule !in add && RuleHides(rule, u, matches)
  }

  lemma CommaIsLost(v: View, upstream: seq<string>, mapping: map<string, string>, matches: Matcher, a: string)
    requires a in PendingAdd(Parse(v.models, ','), upstream, v.ignored, mapping, matches) && ',' in a
    ensures var v2 := DetectAndApplyAll(v, upstream, mapping, matches).view;
            a in DetectOn(v2, upstream, mapping, matches, false).detected
  {
    var v2 := DetectAndApplyAll(v, upstream, mapping, matches).view;
    ApplyAllResult(v, upstream, mapping, matches);
    PendingMembers(Parse(v.models, ','), upstream, v.ignored, mapping, matches);
    PendingMembers(Parse(v2.models, ','), upstream, v2.ignored, mapping, matches);
    NormalizeFree(Parse(v2.models, ','), ',');
  }

  /** The same, on bare lists: `next` and `rules'` are what applying leaves of
      `local` and `rules`. */
  lemma SettleCore(local: seq<string>, next: seq<string>, add: seq<string>, remove: seq<string>, u: seq<string>,
                   rules: seq<string>, rules': seq<string>, mapping: map<string, string>, matches: Matcher)
    requires forall x :: x in add <==> x in u && !Covered(x, local, mapping) && !Hidden(x, rules, matches)
    requires forall x :: x in remove <==> x in local && x !in mapping && x !in u
    requires forall x :: x in next <==> (x in local && x !in remove) || x in add
    requires forall x :: x in rules' <==> x in rules && x !in add
    ensures forall x :: x in next && x !in mapping ==> x in u
    ensures (forall x :: x in u && !Covered(x, next, mapping) ==> Hidden(x, rules', matches)) <==>
            (forall x :: x in u && !Covered(x, local, mapping) && Hidden(x, rules, matches) ==> Hidden(x, rules', matches))
  {
    forall x | x in u ensures Covered(x, next, mapping) <==> Covered(x, local, mapping) || x in add {}
  }

  lemma NothingLeft(v: View, upstream: seq<string>, mapping: map<string, string>, matches: Matcher)
    requires FreeOf(PendingAdd(Parse(v.models, ','), upstream, v.ignored, mapping, matches), ',')
    ensures var v2 := DetectAndApplyAll(v, upstream, mapping, matches).view;
            && PendingRemove(Parse(v2.models, ','), upstream, mapping) == []
            && (PendingAdd(Parse(v2.models, ','), upstream, v2.ignored, mapping, matches) == [] <==>
                RulesSurvive(v, upstream, mapping, matches))
  {
    var r := DetectAndApplyAll(v, upstream, mapping, matches);
    var local, local2 := Parse(v.models, ','), Parse(r.view.models, ',');
    var add, remove := PendingAdd(local, upstream, v.ignored, mapping, matches), PendingRemove(local, upstream, mapping);
    var add2, remove2 := PendingAdd(local2, upstream, r.view.ignored, mapping, matches), PendingRemove(local2, upstream, mapping);
    ApplyAllResult(v, upstream, mapping, matches);
    NormalizeFree(local, ',');
    StoredAndRead(r.next);
    PendingMembers(local, upstream, v.ignored, mapping, matches);
    PendingMembers(local2, upstream, r.view.ignored, mapping, matches);
    SettleCore(LocalModels(v), r.next, add, remove, Normalize(upstream), Normalize(v.ignored), Normalize(r.view.ignored), mapping, matches);
    EmptyIfNoMember(add2);
    EmptyIfNoMember(remove2);
    SurviveByDroppedRules(v, upstream, mapping, matches, Normalize(r.view.ignored));
  }

  lemma EmptyIfNoMember(s: seq<string>)
    ensures s == [] <==> forall x :: x !in s
  {
    assert s != [] ==> s[0] in s;
  }

  lemma SurviveByDroppedRules(v: View, upstream: seq<string>, mapping: map<string, string>, matches: Matcher, rules': seq<string>)
    requires var add := PendingAdd(Parse(v.models, ','), upstream, v.ignored, mapping, matches);
             forall x :: x in rules' <==> x in Normalize(v.ignored) && x !in add
    ensures RulesSurvive(v, upstream, mapping, matches) <==>
            forall x :: x in Normalize(upstream) && !Covered(x, LocalModels(v), mapping) && Hidden(x, Normalize(v.ignored), matches) ==>
              Hidden(x, rules', matches)
  {
  }

  // ---------- what reconciliation promises ----------

  /** Detect, apply everything, detect again: nothing is left exactly when no
      pending addition contains the list separator and no ignore rule that hides
      another model is itself a pending addition. */
  lemma SecondDetectionIsEmpty(v: View, upstream: seq<string>, mapping: map<string, string>, matches: Matcher)
    ensures var v1 := DetectOn(v, upstream, mapping, matches, false);
            var v3 := DetectOn(DetectAndApplyAll(v, upstream, mapping, matches).view, upstream, mapping, matches, false);
            (v3.detected == [] && v3.removed == []) <==>
            FreeOf(v1.detected, ',') && RulesSurvive(v, upstream, mapping, matches)
  {
    var add := DetectOn(v, upstream, mapping, matches, false).detected;
    if FreeOf(add, ',') {
      NothingLeft(v, upstream, mapping, matches);
    } else {
      var a :| a in add && ',' in a;
      CommaIsLost(v, upstream, mapping, matches, a);
    }
  }

  /** A regular-expression rule that is itself the name of an upstream model is
      adopted as that model and so lost as a rule: the model it hid turns up. */
  lemma RuleIsLost(rule: string, name: string, matches: Matcher)
    requires "regex:" <= rule && Trimmed(rule) && name != "" && Trimmed(name) && name != rule
    requires matches(TrimSpace(rule[6..]), name) && !matches(TrimSpace(rule[6..]), rule)
    ensures var v := View("", [], [], [rule]);
            var v3 := DetectOn(DetectAndApplyAll(v, [rule, name], map[], matches).view, [rule, name], map[], matches, false);
            !(v3.detected == [] && v3.removed == [])
  {
    var v, upstream := View("", [], [], [rule]), [rule, name];
    var add := PendingAdd(Parse(v.models, ','), upstream, v.ignored, map[], matches);
    NormalizeFixed(upstream);
    NormalizeFixed(v.ignored);
    PendingMembers(Parse(v.models, ','), upstream, v.ignored, map[], matches);
    assert LocalModels(v) == [];
    assert RuleHides(rule, name, matches) && rule in add;
    assert !RulesSurvive(v, upstream, map[], matches);
    SecondDetectionIsEmpty(v, upstream, map[], matches);
  }

  /** In particular it is empty when upstream names are free of commas and none
      looks like a regular-expression rule. */
  lemma PlainNamesSettle(v: View, upstream: seq<string>, mapping: map<string, string>, matches: Matcher)
    requires forall u :: u in Normalize(upstream) ==> ',' !in u && !("regex:" <= u)
    ensures var v3 := DetectOn(DetectAndApplyAll(v, upstream, mapping, matches).view, upstream, mapping, matches, false);
            v3.detected == [] && v3.removed == []
  {
    var add := PendingAdd(Parse(v.models, ','), upstream, v.ignored, mapping, matches);
    PendingMembers(Parse(v.models, ','), upstream, v.ignored, mapping, matches);
    PlainRulesSurvive(v, upstream, mapping, matches, add);
    SecondDetectionIsEmpty(v, upstream, mapping, matches);
  }

  lemma PlainRulesSurvive(v: View, upstream: seq<string>, mapping: map<string, string>, matches: Matcher, add: seq<string>)
    requires add == PendingAdd(Parse(v.models, ','), upstream, v.ignored, mapping, matches)
    requires forall x :: x in add ==> !("regex:" <= x) && !Hidden(x, Normalize(v.ignored), matches)
    ensures RulesSurvive(v, upstream, mapping, matches)
  {
    forall u | u in Normalize(upstream) && Hidden(u, Normalize(v.ignored), matches)
      ensures exists rule :: rule in Normalize(v.ignored) && rule !in add && RuleHides(rule, u, matches)
    {
      var rule :| rule in Normalize(v.ignored) && RuleHides(rule, u, matches);
      assert rule in add ==> RuleHides(rule, rule, matches);
    }
  }

  /** After an automatic sync nothing is left to add exactly when no adopted name
      contains the list separator. */
  lemma AutoSyncSettles(v: View, upstream: seq<string>, mapping: map<string, string>, matches: Matcher)
    ensures var add := DetectOn(v, upstream, mapping, matches, false).detected;
            var v' := DetectOn(v, upstream, mapping, matches, true);
            DetectOn(v', upstream, mapping, matches, false).detected == [] <==> FreeOf(add, ',')
  {
    var local := Parse(v.models, ',');
    var add := PendingAdd(local, upstream, v.ignored, mapping, matches);
    NothingToMerge(local, upstream, v.ignored, mapping, matches);
    if add == [] {
    } else {
      AutoSyncCore(v, upstream, mapping, matches, v.(models := Join(LocalModels(v) + add, ',')));
    }
  }

  lemma AutoSyncCore(v: View, upstream: seq<string>, mapping: map<string, string>, matches: Matcher, v': View)
    requires var add := PendingAdd(Parse(v.models, ','), upstream, v.ignored, mapping, matches);
             v'.models == Join(LocalModels(v) + add, ',') && v'.ignored == v.ignored
    ensures var add := PendingAdd(Parse(v.models, ','), upstream, v.ignored, mapping, matches);
            PendingAdd(Parse(v'.models, ','), upstream, v'.ignored, mapping, matches) == [] <==> FreeOf(add, ',')
  {
    var local, local' := Parse(v.models, ','), Parse(v'.models, ',');
    var add := PendingAdd(local, upstream, v.ignored, mapping, matches);
    var again := PendingAdd(local', upstream, v.ignored, mapping, matches);
    PendingMembers(local, upstream, v.ignored, mapping, matches);
    PendingMembers(local', upstream, v.ignored, mapping, matches);
    NormalizeFree(local, ',');
    NormalizeFree(local', ',');
    EmptyIfNoMember(again);
    if FreeOf(add, ',') {
      ConcatClean(LocalModels(v), add);
      StoredAndRead(LocalModels(v) + add);
    } else {
      var a :| a in add && ',' in a;
      assert a in again;
    }
  }

  /** Whatever is requested, each pending addition ends up in exactly one of added,
      ignored and remaining; adding beats ignoring and removing; and the stored
      ignore list and the new model list say so. */
  lemma RequestPartition(v: View, add: seq<string>, ignore: seq<string>, remove: seq<string>, x: string)
    requires x in Normalize(v.detected)
    ensures var r := ApplyOn(v, add, ignore, remove);
            && (x in r.added <==> x in Normalize(add))
            && (x in r.ignored <==> x in Normalize(ignore))
            && (x in r.remaining <==> x !in r.added && x !in r.ignored)
            && (x in r.added ==> x in r.next && x !in r.removed && x !in r.view.ignored)
            && (x in r.ignored && x !in r.added ==> x in r.view.ignored)
            && (x in r.remaining ==> (x in r.view.ignored <==> x in Normalize(v.ignored)))
            && Clean(r.next)
  {
    var r := ApplyOn(v, add, ignore, remove);
    var pending, gone := Normalize(v.detected), Normalize(v.removed);
    NormalizeFixed(pending);
    NormalizeFixed(gone);
    IntersectClean(add, pending);
    IntersectClean(ignore, pending);
    NormalizeFixed(r.added);
    NormalizeFixed(r.ignored);
    assert forall m :: m in r.added + r.ignored <==> m in r.added || m in r.ignored;
    NormalizeMembersTrimmed(r.added + r.ignored, x);
    SubtractClean(pending, r.added + r.ignored);
    SubtractClean(Intersect(remove, gone), r.added);
    SelectionOrder(LocalModels(v), r.added, r.removed);
    MergeClean(v.ignored, r.ignored);
    NormalizeFixed(Merge(v.ignored, r.ignored));
    SubtractClean(Merge(v.ignored, r.ignored), r.added);
  }

  /** Whatever is requested, and for any name at all: a model is removed exactly if it is
      a pending removal that the request names and does not also add; the other pending
      removals stay pending; and the new model list is the old one without the removed
      models, with the added ones. */
  lemma RemovalPartition(v: View, add: seq<string>, ignore: seq<string>, remove: seq<string>, x: string)
    ensures var r := ApplyOn(v, add, ignore, remove);
            && (x in r.added <==> x in Normalize(add) && x in Normalize(v.detected))
            && (x in r.removed <==> x in Normalize(v.removed) && x in Normalize(remove) && x !in r.added)
            && (x in r.remainingRemove <==> x in Normalize(v.removed) && x !in r.removed)
            && (x in r.next <==> x in r.added || (x in LocalModels(v) && x !in r.removed))
            && (x in LocalModels(v) && x !in Normalize(remove) ==> x in r.next)
  {
    var r := ApplyOn(v, add, ignore, remove);
    var pending, gone := Normalize(v.detected), Normalize(v.removed);
    NormalizeFixed(pending);
    NormalizeFixed(gone);
    NormalizeFixed(LocalModels(v));
    IntersectClean(add, pending);
    IntersectClean(remove, gone);
    NormalizeFixed(r.added);
    NormalizeFixed(Intersect(remove, gone));
    SubtractClean(Intersect(remove, gone), r.added);
    NormalizeFixed(r.removed);
    SubtractClean(gone, r.removed);
    SelectionOrder(LocalModels(v), r.added, r.removed);
  }

  /** What a request stores: the new list reads back as it was computed provided no added
      name has a comma, and the settings hold what is left to decide. */
  lemma RequestIsStored(v: View, add: seq<string>, ignore: seq<string>, remove: seq<string>)
    ensures var r := ApplyOn(v, add, ignore, remove);
            && r.view.detected == r.remaining && r.view.removed == r.remainingRemove
            && (FreeOf(r.added, ',') ==> LocalModels(r.view) == r.next)
  {
    var r := ApplyOn(v, add, ignore, remove);
    if FreeOf(r.added, ',') && r.next != LocalModels(v) {
      NormalizeFree(Parse(v.models, ','), ',');
      forall x | x in r.next ensures ',' !in x {
        RemovalPartition(v, add, ignore, remove, x);
      }
      SelectionOrder(LocalModels(v), r.added, r.removed);
      StoredAndRead(r.next);
    }
  }

  /** No rule equals the name or, being a pattern, matches it. */
  ghost predicate PassesRules(name: string, rules: seq<string>, matches: Matcher) {
    forall rule :: rule in rules ==> if "regex:" <= rule then !matches(TrimSpace(rule[6..]), name) else rule != name
  }

  lemma PassesIfNotHidden(name: string, rules: seq<string>, matches: Matcher)
    ensures PassesRules(name, rules, matches) <==> !Hidden(name, rules, matches)
  {
  }

  /** What detection finds. An upstream model is to be added if it is not local, not the
      target of a mapping, and passes the ignore rules. A local model is to be removed if upstream does not list it and it is not mapped. */
  lemma DetectionFinds(v: View, upstream: seq<string>, mapping: map<string, string>, matches: Matcher, x: string)
    ensures var d := DetectOn(v, upstream, mapping, matches, false);
            && d.models == v.models && d.ignored == v.ignored
            && (x in d.detected <==>
                && x in Normalize(upstream) && x !in LocalModels(v) && x !in mapping.Values
                && PassesRules(x, Normalize(v.ignored), matches))
            && (x in d.removed <==> x in LocalModels(v) && x !in mapping && x !in Normalize(upstream))
  {
    PendingMembers(Parse(v.models, ','), upstream, v.ignored, mapping, matches);
    PassesIfNotHidden(x, Normalize(v.ignored), matches);
  }

  /** An automatic sync adopts what detection finds, after the models already there. */
  lemma AutoSyncAdopts(v: View, upstream: seq<string>, mapping: map<string, string>, matches: Matcher)
    ensures var d, auto := DetectOn(v, upstream, mapping, matches, false), DetectOn(v, upstream, mapping, matches, true);
            && auto.detected == [] && auto.removed == d.removed && auto.ignored == v.ignored
            && (FreeOf(d.detected, ',') ==> LocalModels(auto) == LocalModels(v) + d.detected)
  {
    var local := Parse(v.models, ',');
    var add := PendingAdd(local, upstream, v.ignored, mapping, matches);
    NothingToMerge(local, upstream, v.ignored, mapping, matches);
    if FreeOf(add, ',') && add != [] {
      NormalizeFree(local, ',');
      PendingMembers(local, upstream, v.ignored, mapping, matches);
      ConcatClean(LocalModels(v), add);
      StoredAndRead(LocalModels(v) + add);
    }
  }

  lemma {:induction false} NormalizeMembersTrimmed(s: seq<string>, x: string)
    requires forall m :: m in s ==> m != "" && Trimmed(m)
    ensures x in Normalize(s) <==> x in s
  {
    if s != [] {
      var init, last := s[..|s| - 1], s[|s| - 1];
      assert last in s && forall m :: m in s <==> m in init || m == last;
      NormalizeMembersTrimmed(init, x);
      assert TrimSpace(last) == last;
    }
  }
}
