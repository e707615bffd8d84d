/** Comparing local prices with those of several upstream channels: a table of
    (model, field) differences is built, then pruned of channels and entries
    without a real difference. Prices are reals. */
module RatioSync {
  import opened Common

  /** A decoded JSON scalar. */
  datatype Value = Null | Num(number: real) | Str(text: string)

  const SAME := Str("same")
  const FIELDS := ["model_ratio", "completion_ratio", "cache_ratio", "create_cache_ratio", "image_ratio",
                   "audio_ratio", "audio_completion_ratio", "model_price", "billing_mode", "billing_expr"]

  /** Per field, the value of each model. */
  type Prices = map<string, map<string, Value>>

  datatype Channel = Channel(name: string, data: Prices)

  datatype Item = Item(current: Value, upstreams: map<string, Value>, confidence: map<string, bool>)

  type Differences = map<string, map<string, Item>>

  predicate ValuesEqual(a: Value, b: Value) {
    match (a, b)
    case (Num(x), Num(y)) => NearlyEqual(x, y)
    case _ => a == b
  }

  predicate Has(data: Prices, field: string, model: string) {
    field in data && model in data[field]
  }

  function Lookup(data: Prices, field: string, model: string): Value {
    if Has(data, field, model) then data[field][model] else Null
  }

  function Column(data: Prices, field: string): map<string, Value> {
    if field in data then data[field] else map[]
  }

  /** A pricing endpoint that reports the placeholder price is not trusted. */
  predicate Confident(c: Channel, model: string) {
    var ratios, completions := Column(c.data, "model_ratio"), Column(c.data, "completion_ratio");
    !(|ratios| > 0 && |completions| > 0 && model in ratios && model in completions
      && ratios[model].Num? && completions[model].Num?
      && NearlyEqual(ratios[model].number, 37.5) && NearlyEqual(completions[model].number, 1.0))
  }

  // ---------- building one entry ----------

  /** What the entry shows for a channel: its value, nothing, or "same". */
  function Cell(current: Value, c: Channel, field: string, model: string): Value {
    var up := Lookup(c.data, field, model);
    if Has(c.data, field, model) && ValuesEqual(current, up) then SAME
    else if up == Null && current == Null then SAME
    else up
  }

  predicate Differs(current: Value, c: Channel, field: string, model: string) {
    || (Has(c.data, field, model) && current != Null && !ValuesEqual(current, Lookup(c.data, field, model)))
    || (current == Null && Cell(current, c, field, model) != Null && Cell(current, c, field, model) != SAME)
  }

  function Cells(current: Value, channels: seq<Channel>, field: string, model: string): map<string, Value> {
    if channels == [] then map[]
    else
      var c := channels[|channels| - 1];
      Cells(current, channels[..|channels| - 1], field, model)[c.name := Cell(current, c, field, model)]
  }

  /** A channel's confidence is that of the last channel of its name. */
  function Confidences(channels: seq<Channel>, model: string): map<string, bool> {
    if channels == [] then map[]
    else
      var c := channels[|channels| - 1];
      Confidences(channels[..|channels| - 1], model)[c.name := Confident(c, model)]
  }

  function ItemFor(local: Prices, channels: seq<Channel>, field: string, model: string): Item {
    var current := Lookup(local, field, model);
    Item(current, Cells(current, channels, field, model), Confidences(channels, model))
  }

  predicate AnyHas(channels: seq<Channel>, field: string, model: string)
    ensures AnyHas(channels, field, model) <==> exists c :: c in channels && Has(c.data, field, model)
  {
    channels != [] &&
    var init, last := channels[..|channels| - 1], channels[|channels| - 1];
    assert last in channels && forall c :: c in channels <==> c in init || c == last;
    (AnyHas(init, field, model) || Has(last.data, field, model))
  }

  predicate AnyDiffers(current: Value, channels: seq<Channel>, field: string, model: string)
    ensures AnyDiffers(current, channels, field, model) <==> exists c :: c in channels && Differs(current, c, field, model)
  {
    channels != [] &&
    var init, last := channels[..|channels| - 1], channels[|channels| - 1];
    assert last in channels && forall c :: c in channels <==> c in init || c == last;
    (AnyDiffers(current, init, field, model) || Differs(current, last, field, model))
  }

  predicate Included(local: Prices, channels: seq<Channel>, field: string, model: string) {
    var current := Lookup(local, field, model);
    if current != Null then AnyDiffers(current, channels, field, model) else AnyHas(channels, field, model)
  }

  method BuildItem(local: Prices, channels: seq<Channel>, field: string, model: string)
    returns (included: bool, item: Item)
    ensures item == ItemFor(local, channels, field, model)
    ensures included <==> Included(local, channels, field, model)
  {
    var current := Lookup(local, field, model);
    var upstreams, confidence := map[], map[];
    var hasUpstream, hasDifference := false, false;
    for i := 0 to |channels|
      invariant upstreams == Cells(current, channels[..i], field, model)
      invariant confidence == Confidences(channels[..i], model)
      invariant hasUpstream <==> AnyHas(channels[..i], field, model)
      invariant hasDifference <==> AnyDiffers(current, channels[..i], field, model)
    {
      var c := channels[i];
      assert channels[..i + 1][..i] == channels[..i];
      var up := Null;
      if Has(c.data, field, model) {
        up := c.data[field][model];
        hasUpstream := true;
        if current != Null && !ValuesEqual(current, up) {
          hasDifference := true;
        } else if ValuesEqual(current, up) {
          up := SAME;
        }
      }
      if up == Null && current == Null {
        up := SAME;
      }
      if current == Null && up != Null && up != SAME {
        hasDifference := true;
      }
      upstreams := upstreams[c.name := up];
      confidence := confidence[c.name := Confident(c, model)];
    }
    assert channels[..|channels|] == channels;
    included := if current != Null then hasDifference else hasUpstream;
    item := Item(current, upstreams, confidence);
  }

  // ---------- building the table ----------

  ghost predicate Known(fields: seq<string>, local: Prices, channels: seq<Channel>, model: string) {
    exists f :: f in fields && (Has(local, f, model) || exists c :: c in channels && Has(c.data, f, model))
  }

  method CollectModels(fields: seq<string>, local: Prices, channels: seq<Channel>) returns (models: set<string>)
    ensures forall m :: m in models <==> Known(fields, local, channels, m)
  {
    models := {};
    for i := 0 to |fields|
      invariant forall m :: m in models <==> exists f :: f in fields[..i] && Has(local, f, m)
    {
      assert forall f :: f in fields[..i + 1] <==> f in fields[..i] || f == fields[i];
      assert forall m :: m in Column(local, fields[i]) <==> Has(local, fields[i], m);
      models := models + Column(local, fields[i]).Keys;
    }
    assert fields[..|fields|] == fields;
    ghost var fromLocal := models;
    for k := 0 to |channels|
      invariant forall m :: m in models <==>
        m in fromLocal || exists c, f :: c in channels[..k] && f in fields && Has(c.data, f, m)
    {
      assert forall c :: c in channels[..k + 1] <==> c in channels[..k] || c == channels[k];
      var own := ModelsOf(fields, channels[k].data);
      models := models + own;
    }
    assert channels[..|channels|] == channels;
  }

  method ModelsOf(fields: seq<string>, data: Prices) returns (models: set<string>)
    ensures forall m :: m in models <==> exists f :: f in fields && Has(data, f, m)
  {
    models := {};
    for i := 0 to |fields|
      invariant forall m :: m in models <==> exists f :: f in fields[..i] && Has(data, f, m)
    {
      assert forall f :: f in fields[..i + 1] <==> f in fields[..i] || f == fields[i];
      assert forall m :: m in Column(data, fields[i]) <==> Has(data, fields[i], m);
      models := models + Column(data, fields[i]).Keys;
    }
    assert fields[..|fields|] == fields;
  }

  function Row(fields: seq<string>, local: Prices, channels: seq<Channel>, model: string): map<string, Item> {
    map f | f in fields && Included(local, channels, f, model) :: ItemFor(local, channels, f, model)
  }

  lemma RowGrows(fields: seq<string>, i: nat, local: Prices, channels: seq<Channel>, model: string)
    requires i < |fields|
    ensures Row(fields[..i + 1], local, channels, model) ==
            if Included(local, channels, fields[i], model)
            then Row(fields[..i], local, channels, model)[fields[i] := ItemFor(local, channels, fields[i], model)]
            else Row(fields[..i], local, channels, model)
  {
    assert fields[..i + 1] == fields[..i] + [fields[i]];
  }

  method BuildRow(fields: seq<string>, local: Prices, channels: seq<Channel>, model: string) returns (row: map<string, Item>)
    ensures row == Row(fields, local, channels, model)
  {
    row := map[];
    for i := 0 to |fields|
      invariant row == Row(fields[..i], local, channels, model)
    {
      var included, item := BuildItem(local, channels, fields[i], model);
      if included {
        row := row[fields[i] := item];
      }
      RowGrows(fields, i, local, channels, model);
    }
    assert fields[..|fields|] == fields;
  }

  /** The table before pruning: the non-empty rows. */
  ghost predicate IsTable(d: Differences, fields: seq<string>, local: Prices, channels: seq<Channel>) {
    && (forall m :: m in d <==> Row(fields, local, channels, m) != map[])
    && (forall m :: m in d ==> d[m] == Row(fields, local, channels, m))
  }

  lemma RowsAreKnown(fields: seq<string>, local: Prices, channels: seq<Channel>, model: string)
    requires Row(fields, local, channels, model) != map[]
    ensures Known(fields, local, channels, model)
  {
    var f :| f in Row(fields, local, channels, model);
  }

  method BuildTable(fields: seq<string>, local: Prices, channels: seq<Channel>) returns (d: Differences)
    ensures IsTable(d, fields, local, channels)
  {
    var models := CollectModels(fields, local, channels);
    d := map[];
    var pending := models;
    while pending != {}
      invariant pending <= models
      invariant forall m :: m in d <==> m in models - pending && Row(fields, local, channels, m) != map[]
      invariant forall m :: m in d ==> d[m] == Row(fields, local, channels, m)
      decreases pending
    {
      var m :| m in pending;
      var row := BuildRow(fields, local, channels, m);
      if row != map[] {
        d := d[m := row];
      }
      pending := pending - {m};
    }
    forall m | Row(fields, local, channels, m) != map[] ensures m in models {
      RowsAreKnown(fields, local, channels, m);
    }
  }

  // ---------- pruning ----------

  predicate Real(v: Value) {
    v != Null && v != SAME
  }

  ghost predicate HasDiff(d: Differences, name: string) {
    exists m, f :: m in d && f in d[m] && name in d[m][f].upstreams && Real(d[m][f].upstreams[name])
  }

  function RealNames(item: Item): set<string> {
    set n | n in item.upstreams && Real(item.upstreams[n])
  }

  function RowNames(row: map<string, Item>): set<string> {
    set f, n | f in row && n in RealNames(row[f]) :: n
  }

  method DifferingNames(d: Differences) returns (names: set<string>)
    ensures forall n :: n in names <==> HasDiff(d, n)
  {
    names := {};
    var pending := d.Keys;
    while pending != {}
      invariant pending <= d.Keys
      invariant forall n :: n in names <==> exists m :: m in d.Keys - pending && n in RowNames(d[m])
      decreases pending
    {
      var m :| m in pending;
      var row := NamesInRow(d[m]);
      names := names + row;
      pending := pending - {m};
    }
    forall n ensures (exists m :: m in d && n in RowNames(d[m])) <==> HasDiff(d, n) {
      if m :| m in d && n in RowNames(d[m]) {
        var f :| f in d[m] && n in RealNames(d[m][f]);
        assert HasDiff(d, n);
      }
      if HasDiff(d, n) {
        var m, f :| m in d && f in d[m] && n in d[m][f].upstreams && Real(d[m][f].upstreams[n]);
        assert n in RealNames(d[m][f]) && n in RowNames(d[m]);
      }
    }
  }

  method NamesInRow(row: map<string, Item>) returns (names: set<string>)
    ensures names == RowNames(row)
  {
    names := {};
    var pending := row.Keys;
    while pending != {}
      invariant pending <= row.Keys
      invariant names == set f, n | f in row && f !in pending && n in RealNames(row[f]) :: n
      decreases pending
    {
      var f :| f in pending;
      names := names + RealNames(row[f]);
      pending := pending - {f};
    }
  }

  function PruneItem(item: Item, names: set<string>): Item {
    Item(item.current, map n | n in item.upstreams && n in names :: item.upstreams[n],
         map n | n in item.confidence && (n in names || n !in item.upstreams) :: item.confidence[n])
  }

  predicate Worthless(item: Item) {
    forall n :: n in item.upstreams ==> item.upstreams[n] == SAME
  }

  function PruneRow(row: map<string, Item>, names: set<string>): map<string, Item> {
    map f | f in row && !Worthless(PruneItem(row[f], names)) :: PruneItem(row[f], names)
  }

  /** Only the non-empty pruned rows remain. */
  ghost predicate IsPruned(r: Differences, d: Differences, names: set<string>) {
    && (forall m :: m in r <==> m in d && PruneRow(d[m], names) != map[])
    && (forall m :: m in r ==> r[m] == PruneRow(d[m], names))
  }

  method Prune(d: Differences, names: set<string>) returns (r: Differences)
    ensures IsPruned(r, d, names)
  {
    r := d;
    var pending := d.Keys;
    while pending != {}
      invariant pending <= d.Keys
      invariant forall m :: m in r <==> m in d && (m in pending || PruneRow(d[m], names) != map[])
      invariant forall m :: m in r ==> r[m] == if m in pending then d[m] else PruneRow(d[m], names)
      decreases pending
    {
      var m :| m in pending;
      var row := PruneOneRow(d[m], names);
      pending := pending - {m};
      if row == map[] {
        r := r - {m};
      } else {
        r := r[m := row];
      }
    }
  }

  method PruneOneRow(row: map<string, Item>, names: set<string>) returns (r: map<string, Item>)
    ensures r == PruneRow(row, names)
  {
    r := row;
    var pending := row.Keys;
    while pending != {}
      invariant pending <= row.Keys
      invariant r == map f | f in row && (f in pending || !Worthless(PruneItem(row[f], names))) ::
                  if f in pending then row[f] else PruneItem(row[f], names)
      decreases pending
    {
      var f :| f in pending;
      var item := PruneItem(row[f], names);
      pending := pending - {f};
      if Worthless(item) {
        r := r - {f};
      } else {
        r := r[f := item];
      }
    }
  }

  // ---------- what a difference is ----------

  /** Channel names are distinct, and no value is null. */
  ghost predicate Proper(local: Prices, channels: seq<Channel>) {
    && (forall i, j :: 0 <= i < j < |channels| ==> channels[i].name != channels[j].name)
    && (forall f, m :: Has(local, f, m) ==> local[f][m] != Null)
    && (forall c, f, m :: c in channels && Has(c.data, f, m) ==> c.data[f][m] != Null)
  }

  /** Two numbers are apart at a distance of a billionth or more, two texts unless they
      are the same, and a number and a text always. */
  ghost predicate Apart(a: Value, b: Value) {
    match a
    case Null => !b.Null?
    case Num(x) => b.Num? ==> x - b.number >= 0.000000001 || b.number - x >= 0.000000001
    case Str(t) => b.Str? ==> b.text != t
  }

  lemma ApartIsUnequal(a: Value, b: Value)
    ensures Apart(a, b) <==> !ValuesEqual(a, b)
  {
  }

  /** The channel has a number for the model less than a billionth from `price`. */
  ghost predicate Quotes(c: Channel, field: string, model: string, price: real) {
    && Has(c.data, field, model) && c.data[field][model].Num?
    && -0.000000001 < c.data[field][model].number - price < 0.000000001
  }

  /** Only the placeholder prices, model ratio 37.5 with completion ratio 1, cost a
      channel its trust. */
  ghost predicate Trusted(c: Channel, model: string) {
    !(Quotes(c, "model_ratio", model, 37.5) && Quotes(c, "completion_ratio", model, 1.0))
  }

  lemma ConfidentIsTrusted(c: Channel, model: string)
    ensures Confident(c, model) <==> Trusted(c, model)
  {
  }

  /** The channel offers a value that is missing locally or apart from the local one. */
  ghost predicate RealDiff(local: Prices, c: Channel, field: string, model: string) {
    Has(c.data, field, model) &&
    (Has(local, field, model) ==> Apart(local[field][model], c.data[field][model]))
  }

  /** A real difference shows as the channel's value; a channel that agrees shows
      the marker, and one that has no value where there is a local one, nothing. */
  ghost function Shown(local: Prices, c: Channel, field: string, model: string): Value {
    if RealDiff(local, c, field, model) then c.data[field][model]
    else if Has(c.data, field, model) || !Has(local, field, model) then SAME
    else Null
  }

  /** A real difference that can be told from the marker "same". */
  ghost predicate Visible(local: Prices, c: Channel, field: string, model: string) {
    RealDiff(local, c, field, model) && c.data[field][model] != SAME
  }

  ghost predicate VisibleSomewhere(fields: seq<string>, local: Prices, c: Channel) {
    exists f, m :: f in fields && Visible(local, c, f, m)
  }

  ghost predicate DiffersSomewhere(fields: seq<string>, local: Prices, c: Channel) {
    exists f, m :: f in fields && RealDiff(local, c, f, m)
  }

  /** An entry shows the local value and lists exactly the channels that differ
      anywhere, with their value where they differ here and a marker elsewhere, and
      with their own confidence. */
  ghost predicate ItemExact(item: Item, fields: seq<string>, local: Prices, channels: seq<Channel>, m: string, f: string) {
    && item.current == Lookup(local, f, m)
    && (forall c :: c in channels ==> (c.name in item.upstreams <==> DiffersSomewhere(fields, local, c)))
    && (forall c :: c in channels && c.name in item.upstreams ==> item.upstreams[c.name] == Shown(local, c, f, m))
    && (forall c :: c in channels ==> (c.name in item.confidence <==> DiffersSomewhere(fields, local, c)))
    && (forall c :: c in channels && c.name in item.confidence ==> item.confidence[c.name] == Trusted(c, m))
    && (forall n :: n in item.upstreams ==> exists c :: c in channels && c.name == n)
  }

  /** There is an entry exactly when some channel really differs, and it is exact. */
  ghost predicate EntryExact(r: Differences, fields: seq<string>, local: Prices, channels: seq<Channel>, m: string, f: string) {
    && (m in r && f in r[m] <==> f in fields && exists c :: c in channels && RealDiff(local, c, f, m))
    && (m in r && f in r[m] ==> ItemExact(r[m][f], fields, local, channels, m, f))
  }

  ghost predicate IsDiff(r: Differences, fields: seq<string>, local: Prices, channels: seq<Channel>) {
    forall m, f :: EntryExact(r, fields, local, channels, m, f)
  }

  lemma {:induction false} CellOf(current: Value, channels: seq<Channel>, field: string, model: string, c: Channel)
    requires forall i, j :: 0 <= i < j < |channels| ==> channels[i].name != channels[j].name
    requires c in channels
    ensures c.name in Cells(current, channels, field, model)
    ensures Cells(current, channels, field, model)[c.name] == Cell(current, c, field, model)
  {
    var init, last := channels[..|channels| - 1], channels[|channels| - 1];
    if c != last {
      assert c in init;
      CellOf(current, init, field, model, c);
      var i :| 0 <= i < |init| && channels[i] == c;
      assert channels[i].name != last.name;
    }
  }

  lemma {:induction false} ConfidenceOf(channels: seq<Channel>, model: string, c: Channel)
    requires forall i, j :: 0 <= i < j < |channels| ==> channels[i].name != channels[j].name
    requires c in channels
    ensures c.name in Confidences(channels, model) && Confidences(channels, model)[c.name] == Confident(c, model)
  {
    var init, last := channels[..|channels| - 1], channels[|channels| - 1];
    if c != last {
      assert c in init;
      ConfidenceOf(init, model, c);
      var i :| 0 <= i < |init| && channels[i] == c;
      assert channels[i].name != last.name;
    }
  }

  lemma {:induction false} CellNames(current: Value, channels: seq<Channel>, field: string, model: string, n: string)
    requires n in Cells(current, channels, field, model)
    ensures exists c :: c in channels && c.name == n
  {
    var init, last := channels[..|channels| - 1], channels[|channels| - 1];
    assert last in channels;
    if n != last.name {
      CellNames(current, init, field, model, n);
      var c :| c in init && c.name == n;
      assert c in channels;
    }
  }

  lemma CellMeaning(local: Prices, c: Channel, field: string, model: string)
    requires Proper(local, [c])
    ensures var v := Cell(Lookup(local, field, model), c, field, model);
            && v == Shown(local, c, field, model)
            && (Real(v) <==> Visible(local, c, field, model))
  {
    assert c in [c];
    ApartIsUnequal(Lookup(local, field, model), Lookup(c.data, field, model));
  }

  lemma ProperOne(local: Prices, channels: seq<Channel>, c: Channel)
    requires Proper(local, channels) && c in channels
    ensures Proper(local, [c])
  {
    forall d, f, m | d in [c] && Has(d.data, f, m) ensures d.data[f][m] != Null {}
  }

  /** Inclusion in the table is exactly the presence of a real difference. */
  lemma IncludedMeaning(local: Prices, channels: seq<Channel>, field: string, model: string)
    requires Proper(local, channels)
    ensures Included(local, channels, field, model) <==> exists c :: c in channels && RealDiff(local, c, field, model)
  {
    forall c | c in channels
      ensures RealDiff(local, c, field, model) <==>
              if Lookup(local, field, model) != Null then Differs(Lookup(local, field, model), c, field, model)
              else Has(c.data, field, model)
    {
      ProperOne(local, channels, c);
      CellMeaning(local, c, field, model);
    }
  }

  lemma TableCells(fields: seq<string>, local: Prices, channels: seq<Channel>, d: Differences, m: string, f: string, c: Channel)
    requires Proper(local, channels) && IsTable(d, fields, local, channels) && m in d && f in d[m] && c in channels
    ensures f in fields && c.name in d[m][f].upstreams
    ensures d[m][f].upstreams[c.name] == Shown(local, c, f, m)
    ensures Real(d[m][f].upstreams[c.name]) <==> Visible(local, c, f, m)
    ensures c.name in d[m][f].confidence && d[m][f].confidence[c.name] == Trusted(c, m)
  {
    ConfidenceOf(channels, m, c);
    ConfidentIsTrusted(c, m);
    ProperOne(local, channels, c);
    CellMeaning(local, c, f, m);
    CellOf(Lookup(local, f, m), channels, f, m, c);
  }

  lemma TableEntries(fields: seq<string>, local: Prices, channels: seq<Channel>, d: Differences, m: string, f: string)
    requires Proper(local, channels) && IsTable(d, fields, local, channels)
    ensures m in d && f in d[m] <==> f in fields && exists c :: c in channels && RealDiff(local, c, f, m)
  {
    IncludedMeaning(local, channels, f, m);
    assert f in Row(fields, local, channels, m) ==> Row(fields, local, channels, m) != map[];
  }

  /** The channels found to differ are those with a visible difference somewhere. */
  lemma NamesMeaning(fields: seq<string>, local: Prices, channels: seq<Channel>, d: Differences, c: Channel)
    requires Proper(local, channels) && IsTable(d, fields, local, channels) && c in channels
    ensures HasDiff(d, c.name) <==> VisibleSomewhere(fields, local, c)
  {
    if HasDiff(d, c.name) {
      var m, f :| m in d && f in d[m] && c.name in d[m][f].upstreams && Real(d[m][f].upstreams[c.name]);
      TableCells(fields, local, channels, d, m, f, c);
    }
    if VisibleSomewhere(fields, local, c) {
      var f, m :| f in fields && Visible(local, c, f, m);
      TableEntries(fields, local, channels, d, m, f);
      TableCells(fields, local, channels, d, m, f, c);
    }
  }

  /** Some channel that is kept does not show the marker in this entry. */
  ghost predicate Supported(fields: seq<string>, local: Prices, channels: seq<Channel>, m: string, f: string) {
    exists c :: c in channels && VisibleSomewhere(fields, local, c) && Shown(local, c, f, m) != SAME
  }

  /** Pruning keeps exactly the supported entries. */
  lemma KeptMeaning(fields: seq<string>, local: Prices, channels: seq<Channel>, d: Differences, names: set<string>, m: string, f: string)
    requires Proper(local, channels) && IsTable(d, fields, local, channels) && (forall n :: n in names <==> HasDiff(d, n))
    requires m in d && f in d[m]
    ensures f in PruneRow(d[m], names) <==> Supported(fields, local, channels, m, f)
  {
    var item := PruneItem(d[m][f], names);
    if !Worthless(item) {
      var n :| n in item.upstreams && item.upstreams[n] != SAME;
      CellNames(Lookup(local, f, m), channels, f, m, n);
      var c :| c in channels && c.name == n;
      TableCells(fields, local, channels, d, m, f, c);
      NamesMeaning(fields, local, channels, d, c);
    }
    if Supported(fields, local, channels, m, f) {
      var c :| c in channels && VisibleSomewhere(fields, local, c) && Shown(local, c, f, m) != SAME;
      TableCells(fields, local, channels, d, m, f, c);
      NamesMeaning(fields, local, channels, d, c);
      assert c.name in item.upstreams;
    }
  }

  lemma PrunedChannel(fields: seq<string>, local: Prices, channels: seq<Channel>, d: Differences, names: set<string>, m: string, f: string, c: Channel)
    requires Proper(local, channels) && IsTable(d, fields, local, channels) && (forall n :: n in names <==> HasDiff(d, n))
    requires m in d && f in d[m] && c in channels
    ensures var item := PruneItem(d[m][f], names);
            && (c.name in item.upstreams <==> VisibleSomewhere(fields, local, c))
            && (c.name in item.upstreams ==> item.upstreams[c.name] == Shown(local, c, f, m))
            && (c.name in item.confidence <==> VisibleSomewhere(fields, local, c))
            && (c.name in item.confidence ==> item.confidence[c.name] == Trusted(c, m))
  {
    TableCells(fields, local, channels, d, m, f, c);
    NamesMeaning(fields, local, channels, d, c);
  }

  lemma PrunedItemIsExact(fields: seq<string>, local: Prices, channels: seq<Channel>, d: Differences, names: set<string>, m: string, f: string)
    requires Proper(local, channels) && IsTable(d, fields, local, channels) && (forall n :: n in names <==> HasDiff(d, n))
    requires m in d && f in d[m] && AllVisible(fields, local, channels)
    ensures ItemExact(PruneItem(d[m][f], names), fields, local, channels, m, f)
  {
    var item := PruneItem(d[m][f], names);
    forall c | c in channels
      ensures c.name in item.upstreams <==> DiffersSomewhere(fields, local, c)
      ensures c.name in item.upstreams ==> item.upstreams[c.name] == Shown(local, c, f, m)
      ensures c.name in item.confidence <==> DiffersSomewhere(fields, local, c)
      ensures c.name in item.confidence ==> item.confidence[c.name] == Trusted(c, m)
    {
      PrunedChannel(fields, local, channels, d, names, m, f, c);
    }
    forall n | n in item.upstreams ensures exists c :: c in channels && c.name == n {
      CellNames(Lookup(local, f, m), channels, f, m, n);
    }
  }

  lemma EntryIsExact(fields: seq<string>, local: Prices, channels: seq<Channel>, d: Differences, names: set<string>, r: Differences, m: string, f: string)
    requires Proper(local, channels) && IsTable(d, fields, local, channels) && (forall n :: n in names <==> HasDiff(d, n))
    requires IsPruned(r, d, names) && MarkerIsHarmless(fields, local, channels)
    ensures EntryExact(r, fields, local, channels, m, f)
  {
    TableEntries(fields, local, channels, d, m, f);
    if m in d && f in d[m] {
      assert DiffersAt(fields, local, channels, m, f);
      KeptMeaning(fields, local, channels, d, names, m, f);
      PrunedItemIsExact(fields, local, channels, d, names, m, f);
    }
  }

  // ---------- what the comparison promises ----------

  /** Every channel that differs does so visibly somewhere. */
  ghost predicate AllVisible(fields: seq<string>, local: Prices, channels: seq<Channel>) {
    forall c :: c in channels && DiffersSomewhere(fields, local, c) ==> VisibleSomewhere(fields, local, c)
  }

  ghost predicate DiffersAt(fields: seq<string>, local: Prices, channels: seq<Channel>, m: string, f: string) {
    f in fields && exists c :: c in channels && RealDiff(local, c, f, m)
  }

  /** No value equal to the marker hides a channel or an entry: every channel that
      differs does so visibly somewhere, and where it differs some visibly differing
      channel shows something else. */
  ghost predicate MarkerIsHarmless(fields: seq<string>, local: Prices, channels: seq<Channel>) {
    && AllVisible(fields, local, channels)
    && forall m, f :: DiffersAt(fields, local, channels, m, f) ==> Supported(fields, local, channels, m, f)
  }

  lemma ExactIsHarmless(fields: seq<string>, local: Prices, channels: seq<Channel>, d: Differences, names: set<string>, r: Differences)
    requires Proper(local, channels) && IsTable(d, fields, local, channels) && (forall n :: n in names <==> HasDiff(d, n))
    requires IsPruned(r, d, names) && IsDiff(r, fields, local, channels)
    ensures MarkerIsHarmless(fields, local, channels)
  {
    forall m, f | DiffersAt(fields, local, channels, m, f) ensures Supported(fields, local, channels, m, f) {
      assert EntryExact(r, fields, local, channels, m, f);
      KeptMeaning(fields, local, channels, d, names, m, f);
    }
    forall c | c in channels && DiffersSomewhere(fields, local, c) ensures VisibleSomewhere(fields, local, c) {
      var f, m :| f in fields && RealDiff(local, c, f, m);
      assert EntryExact(r, fields, local, channels, m, f);
      assert ItemExact(r[m][f], fields, local, channels, m, f);
      PrunedChannel(fields, local, channels, d, names, m, f, c);
    }
  }

  /** The result is exactly the real differences if and only if the marker is
      harmless. */
  lemma DifferencesAreExact(fields: seq<string>, local: Prices, channels: seq<Channel>, d: Differences, names: set<string>, r: Differences)
    requires Proper(local, channels) && IsTable(d, fields, local, channels) && (forall n :: n in names <==> HasDiff(d, n))
    requires IsPruned(r, d, names)
    ensures IsDiff(r, fields, local, channels) <==> MarkerIsHarmless(fields, local, channels)
  {
    if MarkerIsHarmless(fields, local, channels) {
      forall m, f ensures EntryExact(r, fields, local, channels, m, f) {
        EntryIsExact(fields, local, channels, d, names, r, m, f);
      }
    } else if IsDiff(r, fields, local, channels) {
      ExactIsHarmless(fields, local, channels, d, names, r);
    }
  }

  /** In particular when no upstream value is the marker text; then pruning never
      drops an entry. */
  lemma WithoutMarkerHarmless(fields: seq<string>, local: Prices, channels: seq<Channel>)
    requires Proper(local, channels)
    requires forall c, f, m :: c in channels && Has(c.data, f, m) ==> c.data[f][m] != SAME
    ensures MarkerIsHarmless(fields, local, channels)
  {
    forall c, f, m | c in channels && f in fields && RealDiff(local, c, f, m)
      ensures Shown(local, c, f, m) != SAME && VisibleSomewhere(fields, local, c)
    {
      assert Visible(local, c, f, m);
    }
  }

  /** For all inputs the result is the pruned table; for proper ones that is exactly
      the real differences if and only if the marker is harmless. */
  method BuildDifferences(local: Prices, channels: seq<Channel>) returns (r: Differences)
    ensures exists d, names :: IsTable(d, FIELDS, local, channels) && (forall n :: n in names <==> HasDiff(d, n)) && IsPruned(r, d, names)
    ensures Proper(local, channels) ==> (IsDiff(r, FIELDS, local, channels) <==> MarkerIsHarmless(FIELDS, local, channels))
  {
    var d := BuildTable(FIELDS, local, channels);
    var names := DifferingNames(d);
    r := Prune(d, names);
    if Proper(local, channels) {
      DifferencesAreExact(FIELDS, local, channels, d, names, r);
    }
  }

  /** An upstream whose billing expression is the text "same" looks unchanged. */
  lemma MarkerHidesDifference(fields: seq<string>, local: Prices, c: Channel, d: Differences, names: set<string>, r: Differences)
    requires local == map["billing_expr" := map["m" := Str("x")]]
    requires c == Channel("c", map["billing_expr" := map["m" := SAME]])
    requires IsTable(d, fields, local, [c]) && (forall n :: n in names <==> HasDiff(d, n)) && IsPruned(r, d, names)
    ensures RealDiff(local, c, "billing_expr", "m") && r == map[]
  {
    forall f, m ensures !Real(Cell(Lookup(local, f, m), c, f, m)) {}
    OneChannelTable(fields, local, c, d);
    NoRealCells(d, names, r);
  }

  lemma OneChannelCells(current: Value, c: Channel, field: string, model: string)
    ensures Cells(current, [c], field, model) == map[c.name := Cell(current, c, field, model)]
  {
    assert [c][..0] == [];
  }

  lemma OneChannelTable(fields: seq<string>, local: Prices, c: Channel, d: Differences)
    requires (forall f, m :: !Real(Cell(Lookup(local, f, m), c, f, m))) && IsTable(d, fields, local, [c])
    ensures forall m, f, n :: m in d && f in d[m] && n in d[m][f].upstreams ==> !Real(d[m][f].upstreams[n])
  {
    forall m, f, n | m in d && f in d[m] && n in d[m][f].upstreams ensures !Real(d[m][f].upstreams[n]) {
      OneChannelItem(fields, local, c, m, f, n);
    }
  }

  lemma OneChannelItem(fields: seq<string>, local: Prices, c: Channel, m: string, f: string, n: string)
    requires !Real(Cell(Lookup(local, f, m), c, f, m))
    requires f in Row(fields, local, [c], m) && n in Row(fields, local, [c], m)[f].upstreams
    ensures !Real(Row(fields, local, [c], m)[f].upstreams[n])
  {
    OneChannelCells(Lookup(local, f, m), c, f, m);
  }

  lemma NoRealCells(d: Differences, names: set<string>, r: Differences)
    requires forall m, f, n :: m in d && f in d[m] && n in d[m][f].upstreams ==> !Real(d[m][f].upstreams[n])
    requires (forall n :: n in names <==> HasDiff(d, n)) && IsPruned(r, d, names)
    ensures r == map[]
  {
    forall m | m in d ensures PruneRow(d[m], names) == map[] {}
  }
}
