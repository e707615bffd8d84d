/** Multi-key channels: one text holds all keys, and three maps keyed by position
    hold the status, disabled time and disabled reason of each key. Deleting keys
    re-indexes the maps; every change is written back through a row update that
    re-reads the key text. Decoding a JSON array of keys is an arbitrary function. */
module MultiKey {
  import opened Common
  import opened Text

  type Decoder = string -> Option<seq<string>>

  const ENABLED := 1
  const MANUALLY_DISABLED := 2
  const AUTO_DISABLED := 3

  /** The stored row of a channel, as far as its keys go. */
  datatype Row = Row(key: string, size: int, status: map<int, int>, time: map<int, int>, reason: map<int, string>)

  predicate LooksLikeJson(text: string) {
    "[" <= TrimSpace(text)
  }

  /** The keys a channel uses. */
  function Keys(text: string, json: Decoder): seq<string> {
    if text == "" then []
    else if LooksLikeJson(text) && json(TrimSpace(text)).Some? then json(TrimSpace(text)).value
    else Split(TrimChar(text, '\n'), '\n')
  }

  /** The keys a row update counts: an empty array is read as text. */
  function CountedKeys(text: string, json: Decoder): seq<string> {
    if text == "" then []
    else if LooksLikeJson(text) && json(TrimSpace(text)).Some? && json(TrimSpace(text)).value != []
    then json(TrimSpace(text)).value
    else Split(TrimChar(text, '\n'), '\n')
  }

  function StatusOf(row: Row, i: int): int {
    if i in row.status then row.status[i] else ENABLED
  }

  /** Writing a changed channel back. An empty key text is a zero value, which the
      row update skips; the size is recounted and statuses beyond it dropped. */
  function Written(row: Row, changed: Row, json: Decoder): Row {
    var text := if changed.key != "" then changed.key else row.key;
    var size := |CountedKeys(text, json)|;
    Row(text, size, map i | i in changed.status && i < size :: changed.status[i], changed.time, changed.reason)
  }

  /** Size and map positions fit the keys. */
  ghost predicate Fits(row: Row, json: Decoder) {
    var n := |Keys(row.key, json)|;
    && row.size == n && CountedKeys(row.key, json) == Keys(row.key, json)
    && (forall i :: i in row.status ==> 0 <= i < n)
    && (forall i :: i in row.time ==> 0 <= i < n)
    && (forall i :: i in row.reason ==> 0 <= i < n)
  }

  // ---------- re-indexing ----------

  /** The positions below `n` that pass, in order. */
  function Kept(pass: int -> bool, n: nat): (r: seq<int>)
    ensures forall j :: 0 <= j < |r| ==> 0 <= r[j] < n
  {
    if n == 0 then [] else if pass(n - 1) then Kept(pass, n - 1) + [n - 1] else Kept(pass, n - 1)
  }

  lemma {:induction false} KeptIsExact(pass: int -> bool, n: nat)
    ensures forall i :: i in Kept(pass, n) <==> 0 <= i < n && pass(i)
    ensures forall j, k :: 0 <= j < k < |Kept(pass, n)| ==> Kept(pass, n)[j] < Kept(pass, n)[k]
  {
    if n > 0 {
      KeptIsExact(pass, n - 1);
    }
  }

  lemma {:induction false} KeptNone(pass: int -> bool, n: nat)
    requires forall i :: 0 <= i < n ==> !pass(i)
    ensures Kept(pass, n) == []
  {
    if n > 0 {
      KeptNone(pass, n - 1);
    }
  }

  /** The keys kept so far and the maps renumbered to their new positions. */
  datatype Parts = Parts(keys: seq<string>, status: map<int, int>, time: map<int, int>, reason: map<int, string>)

  function Carry<T>(from: map<int, T>, i: int, to: map<int, T>, newIndex: int, wanted: bool): map<int, T> {
    if wanted && i in from then to[newIndex := from[i]] else to
  }

  /** Keeps the key at position `i`. Its status is carried over when it is disabled;
      its time and reason then too, or always if `always` is set. */
  function KeepKey(p: Parts, row: Row, keys: seq<string>, i: int, always: bool): Parts
    requires 0 <= i < |keys|
  {
    var disabled, newIndex := StatusOf(row, i) != ENABLED, |p.keys|;
    Parts(p.keys + [keys[i]], Carry(row.status, i, p.status, newIndex, disabled),
          Carry(row.time, i, p.time, newIndex, disabled || always),
          Carry(row.reason, i, p.reason, newIndex, disabled || always))
  }

  function PartsOf(row: Row, keys: seq<string>, kept: seq<int>, always: bool): (p: Parts)
    requires forall j :: 0 <= j < |kept| ==> 0 <= kept[j] < |keys|
    ensures |p.keys| == |kept|
  {
    if kept == [] then Parts([], map[], map[], map[])
    else KeepKey(PartsOf(row, keys, kept[..|kept| - 1], always), row, keys, kept[|kept| - 1], always)
  }

  /** What the renumbered maps hold at each new position. */
  lemma {:induction false} PartsAt(row: Row, keys: seq<string>, kept: seq<int>, always: bool, j: int)
    requires forall j :: 0 <= j < |kept| ==> 0 <= kept[j] < |keys|
    ensures var p := PartsOf(row, keys, kept, always);
            var disabled := 0 <= j < |kept| && StatusOf(row, kept[j]) != ENABLED;
            && (0 <= j < |kept| ==> p.keys[j] == keys[kept[j]])
            && (j in p.status <==> disabled) && (j in p.status ==> p.status[j] == row.status[kept[j]])
            && (j in p.time <==> 0 <= j < |kept| && kept[j] in row.time && (disabled || always))
            && (j in p.time ==> p.time[j] == row.time[kept[j]])
            && (j in p.reason <==> 0 <= j < |kept| && kept[j] in row.reason && (disabled || always))
            && (j in p.reason ==> p.reason[j] == row.reason[kept[j]])
  {
    if kept != [] {
      PartsAt(row, keys, kept[..|kept| - 1], always, j);
    }
  }

  function Except(index: int): int -> bool {
    i => i != index
  }

  function NotAutoDisabled(row: Row): int -> bool {
    i => StatusOf(row, i) != AUTO_DISABLED
  }

  /** The parts as the loops build them, position by position. */
  function PartsBelow(row: Row, keys: seq<string>, pass: int -> bool, n: nat, always: bool): Parts
    requires n <= |keys|
  {
    if n == 0 then Parts([], map[], map[], map[])
    else
      var before := PartsBelow(row, keys, pass, n - 1, always);
      if pass(n - 1) then KeepKey(before, row, keys, n - 1, always) else before
  }

  lemma {:induction false} PartsBelowAreKept(row: Row, keys: seq<string>, pass: int -> bool, n: nat, always: bool)
    requires n <= |keys|
    ensures PartsBelow(row, keys, pass, n, always) == PartsOf(row, keys, Kept(pass, n), always)
  {
    if n > 0 {
      PartsBelowAreKept(row, keys, pass, n - 1, always);
      var kept := Kept(pass, n - 1);
      assert (kept + [n - 1])[..|kept|] == kept;
    }
  }

  /** The loop of the delete action. */
  method DropOne(row: Row, keys: seq<string>, index: int) returns (p: Parts)
    ensures p == PartsOf(row, keys, Kept(Except(index), |keys|), true)
  {
    p := Parts([], map[], map[], map[]);
    for i := 0 to |keys|
      invariant p == PartsBelow(row, keys, Except(index), i, true)
    {
      if i != index {
        p := KeepKey(p, row, keys, i, true);
      }
    }
    PartsBelowAreKept(row, keys, Except(index), |keys|, true);
  }

  /** The loop of the delete-disabled action. */
  method DropAutoDisabled(row: Row, keys: seq<string>) returns (deleted: nat, p: Parts)
    ensures p == PartsOf(row, keys, Kept(NotAutoDisabled(row), |keys|), false)
    ensures deleted == |keys| - |p.keys|
  {
    deleted, p := 0, Parts([], map[], map[], map[]);
    for i := 0 to |keys|
      invariant p == PartsBelow(row, keys, NotAutoDisabled(row), i, false)
      invariant deleted == i - |p.keys|
    {
      if StatusOf(row, i) == AUTO_DISABLED {
        deleted := deleted + 1;
      } else {
        p := KeepKey(p, row, keys, i, false);
      }
    }
    PartsBelowAreKept(row, keys, NotAutoDisabled(row), |keys|, false);
  }

  method Pick<T(==)>(s: set<T>) returns (i: T)
    requires s != {}
    ensures i in s
  {
    i :| i in s;
  }

  class Channel {
    var key: string
    var size: int
    var status: map<int, int>
    var time: map<int, int>
    var reason: map<int, string>
    const json: Decoder

    function ToRow(): Row
      reads this
    {
      Row(key, size, status, time, reason)
    }

    constructor (row: Row, json: Decoder)
      ensures ToRow() == row && this.json == json
    {
      key, size, status, time, reason := row.key, row.size, row.status, row.time, row.reason;
      this.json := json;
    }

    method Update(changed: Row)
      modifies this
      ensures ToRow() == Written(old(ToRow()), changed, json)
    {
      var text := if changed.key != "" then changed.key else key;
      var n := |CountedKeys(text, json)|;
      var cleaned := changed.status;
      var pending := cleaned.Keys;
      while pending != {}
        invariant pending <= changed.status.Keys
        invariant cleaned == map i | i in changed.status && (i in pending || i < n) :: changed.status[i]
        decreases pending
      {
        var i := Pick(pending);
        if i >= n {
          cleaned := cleaned - {i};
        }
        pending := pending - {i};
      }
      key, size, status, time, reason := text, n, cleaned, changed.time, changed.reason;
    }

    method DisableKey(index: int) returns (ok: bool)
      modifies this
      ensures ok <==> 0 <= index < old(size)
      ensures ToRow() == var row := old(ToRow());
                         if ok then Written(row, row.(status := row.status[index := MANUALLY_DISABLED]), json) else row
      ensures old(Fits(ToRow(), json)) ==> Fits(ToRow(), json)
    {
      if index < 0 || index >= size {
        return false;
      }
      ghost var row := ToRow();
      Update(ToRow().(status := status[index := MANUALLY_DISABLED]));
      SameKeysFit(row, row.(status := row.status[index := MANUALLY_DISABLED]), json);
      return true;
    }

    method EnableKey(index: int) returns (ok: bool)
      modifies this
      ensures ok <==> 0 <= index < old(size)
      ensures ToRow() == var row := old(ToRow());
                         if ok then Written(row, Row(row.key, row.size, row.status - {index}, row.time - {index}, row.reason - {index}), json)
                         else row
      ensures old(Fits(ToRow(), json)) ==> Fits(ToRow(), json)
    {
      if index < 0 || index >= size {
        return false;
      }
      ghost var row := ToRow();
      Update(Row(key, size, status - {index}, time - {index}, reason - {index}));
      SameKeysFit(row, Row(row.key, row.size, row.status - {index}, row.time - {index}, row.reason - {index}), json);
      return true;
    }

    method EnableAllKeys() returns (enabledCount: nat)
      modifies this
      ensures enabledCount == |old(status)|
      ensures ToRow() == Written(old(ToRow()), old(ToRow()).(status := map[], time := map[], reason := map[]), json)
      ensures old(Fits(ToRow(), json)) ==> Fits(ToRow(), json)
    {
      enabledCount := |status|;
      ghost var row := ToRow();
      Update(Row(key, size, map[], map[], map[]));
      SameKeysFit(row, Row(row.key, row.size, map[], map[], map[]), json);
    }

    method DisableAllKeys() returns (disabledCount: nat)
      modifies this
      ensures var row := old(ToRow());
              && disabledCount == |EnabledBelow(row, row.size)|
              && ToRow() == if disabledCount == 0 then row else Written(row, row.(status := AllDisabled(row)), json)
      ensures old(Fits(ToRow(), json)) ==> Fits(ToRow(), json)
    {
      var row := ToRow();
      var list;
      disabledCount, list := DisableEnabled(row);
      if disabledCount == 0 {
        return;
      }
      Update(row.(status := list));
      SameKeysFit(row, row.(status := AllDisabled(row)), json);
    }

    method DeleteKey(index: int) returns (ok: bool)
      modifies this
      ensures var row := old(ToRow());
              var keys := Keys(row.key, json);
              var kept := Kept(Except(index), |keys|);
              && (ok <==> 0 <= index < row.size && kept != [])
              && ToRow() == if ok then Written(row, Remaining(row, kept, true, json), json) else row
    {
      if index < 0 || index >= size {
        return false;
      }
      var keys := Keys(key, json);
      var p := DropOne(ToRow(), keys, index);
      if |p.keys| == 0 {
        return false;
      }
      Update(Row(Join(p.keys, '\n'), |p.keys|, p.status, p.time, p.reason));
      return true;
    }

    method DeleteDisabledKeys() returns (deletedCount: nat)
      modifies this
      ensures var row := old(ToRow());
              var keys := Keys(row.key, json);
              var kept := Kept(NotAutoDisabled(row), |keys|);
              && deletedCount == |keys| - |kept|
              && ToRow() == if deletedCount > 0 then Written(row, Remaining(row, kept, false, json), json) else row
    {
      var keys := Keys(key, json);
      var p;
      deletedCount, p := DropAutoDisabled(ToRow(), keys);
      if deletedCount == 0 {
        return;
      }
      Update(Row(Join(p.keys, '\n'), |p.keys|, p.status, p.time, p.reason));
    }
  }

  /** The positions below `n` that are enabled. */
  function EnabledBelow(row: Row, n: int): set<int> {
    set i | 0 <= i < n && StatusOf(row, i) == ENABLED
  }

  function DisabledBelow(row: Row, n: int): map<int, int> {
    row.status + map i | i in EnabledBelow(row, n) :: MANUALLY_DISABLED
  }

  function AllDisabled(row: Row): map<int, int> {
    DisabledBelow(row, row.size)
  }

  lemma EnabledGrows(row: Row, i: int)
    requires i >= 0
    ensures var before := EnabledBelow(row, i);
            EnabledBelow(row, i + 1) == if StatusOf(row, i) == ENABLED then before + {i} else before
    ensures |EnabledBelow(row, i + 1)| == |EnabledBelow(row, i)| + if StatusOf(row, i) == ENABLED then 1 else 0
  {
    var before, after := EnabledBelow(row, i), EnabledBelow(row, i + 1);
    assert i !in before;
    if StatusOf(row, i) == ENABLED {
      assert after == before + {i};
    } else {
      assert after == before;
    }
  }

  lemma DisabledGrows(row: Row, i: int, j: int)
    requires EnabledBelow(row, j) == EnabledBelow(row, i) + {i}
    ensures DisabledBelow(row, j) == DisabledBelow(row, i)[i := MANUALLY_DISABLED]
  {
  }

  lemma DisabledSame(row: Row, i: int, j: int)
    requires EnabledBelow(row, j) == EnabledBelow(row, i)
    ensures DisabledBelow(row, j) == DisabledBelow(row, i)
  {
  }

  lemma NothingDisabledBelow(row: Row, n: int)
    requires n <= 0
    ensures |EnabledBelow(row, n)| == 0 && DisabledBelow(row, n) == row.status
  {
    assert EnabledBelow(row, n) == {};
  }

  /** One turn of the loop below. */
  lemma DisableStep(row: Row, i: int, list: map<int, int>)
    requires i >= 0 && list == DisabledBelow(row, i)
    ensures (if i in list then list[i] else ENABLED) == StatusOf(row, i)
    ensures |EnabledBelow(row, i + 1)| == |EnabledBelow(row, i)| + if StatusOf(row, i) == ENABLED then 1 else 0
    ensures DisabledBelow(row, i + 1) == if StatusOf(row, i) == ENABLED then list[i := MANUALLY_DISABLED] else list
  {
    EnabledGrows(row, i);
    NotYetDisabled(row, i);
    if StatusOf(row, i) == ENABLED {
      DisabledGrows(row, i, i + 1);
    } else {
      DisabledSame(row, i, i + 1);
    }
  }

  lemma NotYetDisabled(row: Row, i: int)
    ensures var list := DisabledBelow(row, i); (if i in list then list[i] else ENABLED) == StatusOf(row, i)
  {
    assert i !in EnabledBelow(row, i);
  }

  /** The loop of the disable-all action. */
  method DisableEnabled(row: Row) returns (disabledCount: nat, list: map<int, int>)
    ensures disabledCount == |EnabledBelow(row, row.size)| && list == AllDisabled(row)
  {
    disabledCount, list := 0, row.status;
    NothingDisabledBelow(row, 0);
    var i := 0;
    while i < row.size
      invariant i == 0 || 0 <= i <= row.size
      invariant list == DisabledBelow(row, i) && disabledCount == |EnabledBelow(row, i)|
    {
      DisableStep(row, i, list);
      var current := if i in list then list[i] else ENABLED;
      if current == ENABLED {
        list := list[i := MANUALLY_DISABLED];
        disabledCount := disabledCount + 1;
      }
      i := i + 1;
    }
    if row.size < 0 {
      NothingDisabledBelow(row, row.size);
    }
  }

  /** The channel with only the kept positions. */
  function Remaining(row: Row, kept: seq<int>, always: bool, json: Decoder): Row
    requires forall j :: 0 <= j < |kept| ==> 0 <= kept[j] < |Keys(row.key, json)|
  {
    var p := PartsOf(row, Keys(row.key, json), kept, always);
    Row(Join(p.keys, '\n'), |p.keys|, p.status, p.time, p.reason)
  }

  /** Changing only entries of keys that exist keeps a fitting row fitting. */
  lemma SameKeysFit(row: Row, changed: Row, json: Decoder)
    requires changed.key == row.key
    requires Fits(row, json) ==>
               && (forall i :: i in changed.status ==> 0 <= i < row.size)
               && (forall i :: i in changed.time ==> 0 <= i < row.size)
               && (forall i :: i in changed.reason ==> 0 <= i < row.size)
    ensures Fits(row, json) ==> Fits(Written(row, changed, json), json)
  {
  }

  // ---------- what deletion preserves ----------

  /** The new row holds exactly the kept keys in order, each with its old effective
      status, and a disabled key with its old time and reason. */
  ghost predicate Carried(row: Row, row': Row, kept: seq<int>, json: Decoder)
    requires forall j :: 0 <= j < |kept| ==> 0 <= kept[j] < |Keys(row.key, json)|
  {
    var keys, keys' := Keys(row.key, json), Keys(row'.key, json);
    && |keys'| == |kept| && (forall j :: 0 <= j < |kept| ==> keys'[j] == keys[kept[j]])
    && forall j :: 0 <= j < |kept| ==>
         && StatusOf(row', j) == StatusOf(row, kept[j])
         && (StatusOf(row, kept[j]) != ENABLED ==>
               && (j in row'.time <==> kept[j] in row.time) && (j in row'.time ==> row'.time[j] == row.time[kept[j]])
               && (j in row'.reason <==> kept[j] in row.reason) && (j in row'.reason ==> row'.reason[j] == row.reason[kept[j]]))
  }

  function Survivors(row: Row, kept: seq<int>, json: Decoder): seq<string>
    requires forall j :: 0 <= j < |kept| ==> 0 <= kept[j] < |Keys(row.key, json)|
  {
    PartsOf(row, Keys(row.key, json), kept, false).keys
  }

  /** The joined keys read back as those keys. */
  ghost predicate ReadsBack(keys: seq<string>, json: Decoder) {
    keys != [] && Keys(Join(keys, '\n'), json) == keys
  }

  lemma PartsAll(row: Row, keys: seq<string>, kept: seq<int>, always: bool)
    requires forall j :: 0 <= j < |kept| ==> 0 <= kept[j] < |keys|
    ensures var p := PartsOf(row, keys, kept, always);
            && p.keys == PartsOf(row, keys, kept, false).keys
            && (forall j :: 0 <= j < |kept| ==> p.keys[j] == keys[kept[j]])
            && (forall j :: j in p.status || j in p.time || j in p.reason ==> 0 <= j < |kept|)
  {
    var p, q := PartsOf(row, keys, kept, always), PartsOf(row, keys, kept, false);
    forall j ensures 0 <= j < |kept| ==> p.keys[j] == q.keys[j] == keys[kept[j]] {
      PartsAt(row, keys, kept, always, j);
      PartsAt(row, keys, kept, false, j);
    }
    forall j | j in p.status || j in p.time || j in p.reason ensures 0 <= j < |kept| {
      PartsAt(row, keys, kept, always, j);
    }
  }

  lemma ReadBackCarries(row: Row, kept: seq<int>, always: bool, json: Decoder)
    requires forall j :: 0 <= j < |kept| ==> 0 <= kept[j] < |Keys(row.key, json)|
    requires ReadsBack(Survivors(row, kept, json), json)
    ensures var row' := Written(row, Remaining(row, kept, always, json), json);
            Carried(row, row', kept, json) && Fits(row', json)
  {
    var keys := Keys(row.key, json);
    var p := PartsOf(row, keys, kept, always);
    var row' := Written(row, Remaining(row, kept, always, json), json);
    PartsAll(row, keys, kept, always);
    assert row'.key == Join(p.keys, '\n');
    forall j | 0 <= j < |kept|
      ensures StatusOf(row', j) == StatusOf(row, kept[j])
      ensures StatusOf(row, kept[j]) != ENABLED ==>
              && (j in row'.time <==> kept[j] in row.time) && (j in row'.time ==> row'.time[j] == row.time[kept[j]])
              && (j in row'.reason <==> kept[j] in row.reason) && (j in row'.reason ==> row'.reason[j] == row.reason[kept[j]])
    {
      PartsAt(row, keys, kept, always, j);
    }
  }

  /** A time or reason is carried to position `j`. */
  predicate CarriesAt(row: Row, kept: seq<int>, always: bool, j: int) {
    0 <= j < |kept| && (always || StatusOf(row, kept[j]) != ENABLED) && (kept[j] in row.time || kept[j] in row.reason)
  }

  ghost predicate NoStrays(row: Row, kept: seq<int>, always: bool, n: int) {
    forall j :: CarriesAt(row, kept, always, j) ==> j < n
  }

  /** The text that is stored: an empty one is not written. */
  function StoredText(row: Row, keys: seq<string>): string {
    if Join(keys, '\n') == "" then row.key else Join(keys, '\n')
  }

  predicate Decodes(text: string, json: Decoder) {
    LooksLikeJson(text) && json(TrimSpace(text)).Some?
  }

  /** The stored text is not an array of no keys, and no carried time or reason lies
      beyond the keys it holds. */
  ghost predicate FitsAfter(row: Row, kept: seq<int>, always: bool, json: Decoder)
    requires forall j :: 0 <= j < |kept| ==> 0 <= kept[j] < |Keys(row.key, json)|
  {
    var text := StoredText(row, Survivors(row, kept, json));
    !(Decodes(text, json) && json(TrimSpace(text)).value == []) && NoStrays(row, kept, always, |Keys(text, json)|)
  }

  /** Deleting some keys carries the others over exactly when the survivors read
      back, and says exactly when the new row fits its keys. */
  lemma DeletionIsExact(row: Row, kept: seq<int>, always: bool, json: Decoder)
    requires |kept| < |Keys(row.key, json)|
    requires forall j :: 0 <= j < |kept| ==> 0 <= kept[j] < |Keys(row.key, json)|
    ensures var row' := Written(row, Remaining(row, kept, always, json), json);
            && (Carried(row, row', kept, json) <==> ReadsBack(Survivors(row, kept, json), json))
            && (ReadsBack(Survivors(row, kept, json), json) ==> Fits(row', json))
            && (Fits(row', json) <==> FitsAfter(row, kept, always, json))
  {
    var keys := Keys(row.key, json);
    var p := PartsOf(row, keys, kept, always);
    var row' := Written(row, Remaining(row, kept, always, json), json);
    PartsAll(row, keys, kept, always);
    if ReadsBack(p.keys, json) {
      ReadBackCarries(row, kept, always, json);
    } else {
      assert Carried(row, row', kept, json) ==> Keys(row'.key, json) == p.keys;
    }
    HeldWhereCarried(row, keys, kept, always);
    FitsUnlessStrays(row, row', p, kept, always, json);
  }

  predicate HeldAt(p: Parts, j: int) {
    j in p.time || j in p.reason
  }

  lemma HeldWhereCarried(row: Row, keys: seq<string>, kept: seq<int>, always: bool)
    requires forall j :: 0 <= j < |kept| ==> 0 <= kept[j] < |keys|
    ensures forall j :: HeldAt(PartsOf(row, keys, kept, always), j) <==> CarriesAt(row, kept, always, j)
  {
    forall j ensures HeldAt(PartsOf(row, keys, kept, always), j) <==> CarriesAt(row, kept, always, j) {
      PartsAt(row, keys, kept, always, j);
    }
  }

  lemma FitsUnlessStrays(row: Row, row': Row, p: Parts, kept: seq<int>, always: bool, json: Decoder)
    requires row'.time == p.time && row'.reason == p.reason && row'.size == |CountedKeys(row'.key, json)|
    requires forall i :: i in row'.status ==> 0 <= i < row'.size
    requires forall j :: HeldAt(p, j) <==> CarriesAt(row, kept, always, j)
    requires row'.key != ""
    ensures Fits(row', json) <==>
            && !(Decodes(row'.key, json) && json(TrimSpace(row'.key)).value == [])
            && NoStrays(row, kept, always, |Keys(row'.key, json)|)
  {
    var n := |Keys(row'.key, json)|;
    forall j | j in row'.time || j in row'.reason ensures 0 <= j && CarriesAt(row, kept, always, j) {
      assert HeldAt(p, j);
    }
    if Fits(row', json) {
      forall j | CarriesAt(row, kept, always, j) ensures j < n {
        assert HeldAt(p, j);
      }
    }
  }

  // ---------- what the actions promise ----------

  /** Joined by newlines, the keys are found again: the text is not taken for a JSON
      array, no key contains a newline, and the first and last are not blank. (A
      text that is taken for an array must decode to the very same keys.) */
  ghost predicate Readable(keys: seq<string>, json: Decoder) {
    var text := Join(keys, '\n');
    && keys != []
    && if Decodes(text, json) then json(TrimSpace(text)).value == keys
       else FreeOf(keys, '\n') && keys[0] != "" && keys[|keys| - 1] != ""
  }

  lemma ReadsBackExactly(keys: seq<string>, json: Decoder)
    ensures ReadsBack(keys, json) <==> Readable(keys, json)
  {
    var text := Join(keys, '\n');
    if keys != [] {
      JoinEnds(keys, '\n');
      assert !Decodes(text, json) && text != "" ==> Keys(text, json) == Parse(text, '\n');
      if FreeOf(keys, '\n') {
        ParseJoin(keys, '\n');
      }
      assert text == "" ==> TrimSpace(text) == "";
    }
  }

  /** Newline-separated keys read back exactly when the first and last are not blank. */
  lemma PlainReadsBack(keys: seq<string>, json: Decoder)
    requires !Decodes(Join(keys, '\n'), json)
    ensures ReadsBack(keys, json) <==> keys != [] && FreeOf(keys, '\n') && keys[0] != "" && keys[|keys| - 1] != ""
  {
    ReadsBackExactly(keys, json);
  }

  /** Deleting one key of several keeps the others, their order, status, time and
      reason exactly when the remaining keys are readable. */
  lemma DeleteKeyIsExact(row: Row, index: int, json: Decoder)
    requires Fits(row, json) && 0 <= index < row.size
    ensures var kept := Kept(Except(index), |Keys(row.key, json)|);
            var row' := Written(row, Remaining(row, kept, true, json), json);
            && (forall k :: k in kept <==> 0 <= k < row.size && k != index)
            && (forall j, k :: 0 <= j < k < |kept| ==> kept[j] < kept[k])
            && (Carried(row, row', kept, json) <==> Readable(Survivors(row, kept, json), json))
            && (Fits(row', json) <==> FitsAfter(row, kept, true, json))
  {
    var keys := Keys(row.key, json);
    var kept := Kept(Except(index), |keys|);
    KeptIsShorter(Except(index), |keys|, index);
    KeptIsExact(Except(index), |keys|);
    ReadsBackExactly(Survivors(row, kept, json), json);
    DeletionIsExact(row, kept, true, json);
  }

  lemma {:induction false} KeptIsShorter(pass: int -> bool, n: nat, i: int)
    requires 0 <= i < n && !pass(i)
    ensures |Kept(pass, n)| < n
  {
    if i < n - 1 {
      KeptIsShorter(pass, n - 1, i);
    } else {
      KeptLength(pass, n - 1);
    }
  }

  lemma {:induction false} KeptLength(pass: int -> bool, n: nat)
    ensures |Kept(pass, n)| <= n
  {
    if n > 0 {
      KeptLength(pass, n - 1);
    }
  }

  /** Removing the auto-disabled keys removes exactly those, and carries the others
      over, exactly when the keys left are readable. */
  lemma DeleteDisabledIsExact(row: Row, json: Decoder, i: int)
    requires Fits(row, json) && 0 <= i < row.size && StatusOf(row, i) == AUTO_DISABLED
    ensures var kept := Kept(NotAutoDisabled(row), |Keys(row.key, json)|);
            var row' := Written(row, Remaining(row, kept, false, json), json);
            && (forall k :: k in kept <==> 0 <= k < row.size && StatusOf(row, k) != AUTO_DISABLED)
            && (forall j, k :: 0 <= j < k < |kept| ==> kept[j] < kept[k])
            && (Carried(row, row', kept, json) <==> Readable(Survivors(row, kept, json), json))
            && (Fits(row', json) <==> FitsAfter(row, kept, false, json))
  {
    var keys := Keys(row.key, json);
    var kept := Kept(NotAutoDisabled(row), |keys|);
    KeptIsShorter(NotAutoDisabled(row), |keys|, i);
    KeptIsExact(NotAutoDisabled(row), |keys|);
    ReadsBackExactly(Survivors(row, kept, json), json);
    DeletionIsExact(row, kept, false, json);
  }

  /** When every key is auto-disabled, removing them removes none and enables all. */
  lemma AllDisabledComesBack(row: Row, json: Decoder)
    requires Fits(row, json) && row.size > 0
    requires forall i :: 0 <= i < row.size ==> StatusOf(row, i) == AUTO_DISABLED
    ensures var kept := Kept(NotAutoDisabled(row), |Keys(row.key, json)|);
            var row' := Written(row, Remaining(row, kept, false, json), json);
            && kept == [] && Keys(row'.key, json) == Keys(row.key, json)
            && forall i :: 0 <= i < row.size ==> StatusOf(row', i) == ENABLED
  {
    KeptNone(NotAutoDisabled(row), |Keys(row.key, json)|);
  }

  /** An ordinary key: not blank, trimmed, on one line, not an opening bracket. */
  predicate Ordinary(k: string) {
    k != "" && Trimmed(k) && '\n' !in k && k[0] != '['
  }

  lemma OrdinaryIsNotJson(k: string, rest: string)
    requires Ordinary(k) && (rest == "" || !IsSpace(rest[|rest| - 1]))
    ensures !LooksLikeJson(k + rest)
  {
    assert Trimmed(k + rest);
  }

  /** A leading blank line disappears when the text is read. */
  lemma LeadingBlankIsLost(b: string, json: Decoder)
    requires Ordinary(b)
    ensures Keys(['\n'] + b, json) == [b]
  {
    var text := ['\n'] + b;
    assert text[1..] == b && TrimSpace(text) == TrimSpace(b) == b;
    assert TrimChar(text, '\n') == TrimChar(b, '\n') == b;
    SplitFirst(b, "", '\n');
  }

  lemma {:induction false} KeptAfterFirst(n: nat)
    ensures var kept := Kept(Except(0), n + 1); |kept| == n && forall j :: 0 <= j < n ==> kept[j] == j + 1
  {
    if n > 0 {
      KeptAfterFirst(n - 1);
    }
  }

  lemma DropFirst(row: Row, keys: seq<string>, kept: seq<int>)
    requires |keys| == |kept| + 1 && |kept| > 0 && forall j :: 0 <= j < |kept| ==> kept[j] == j + 1
    ensures var p := PartsOf(row, keys, kept, true);
            p.keys == keys[1..] && (StatusOf(row, 1) != ENABLED ==> 0 in p.status && p.status[0] == row.status[1])
  {
    PartsAll(row, keys, kept, true);
    PartsAt(row, keys, kept, true, 0);
  }

  lemma ThreeKeysRead(a: string, b: string, json: Decoder)
    requires Ordinary(a) && Ordinary(b)
    ensures Join(["", b], '\n') == ['\n'] + b && Keys(Join([a, "", b], '\n'), json) == [a, "", b]
  {
    var keys := [a, "", b];
    assert keys[1..] == ["", b] && ["", b][1..] == [b];
    assert Join(["", b], '\n') == ['\n'] + b;
    assert Join(keys, '\n') == a + ['\n'] + (['\n'] + b) == a + (['\n'] + (['\n'] + b));
    OrdinaryIsNotJson(a, ['\n'] + (['\n'] + b));
    ReadsBackExactly(keys, json);
  }

  lemma ShiftStep(row: Row, kept: seq<int>, b: string, json: Decoder)
    requires Ordinary(b) && |kept| == 2 && kept[0] == 1 && kept[1] == 2 && StatusOf(row, 1) == AUTO_DISABLED
    requires var keys := Keys(row.key, json); |keys| == 3 && keys[1] == "" && keys[2] == b
    ensures var row' := Written(row, Remaining(row, kept, true, json), json);
            Keys(row'.key, json) == [b] && StatusOf(row', 0) == AUTO_DISABLED
  {
    var keys := Keys(row.key, json);
    DropFirst(row, keys, kept);
    assert keys[1..] == ["", b] && keys[1..][1..] == [b];
    LeadingBlankIsLost(b, json);
    var text := ['\n'] + b;
    assert Join(keys[1..], '\n') == text && text[1..] == b && TrimSpace(text) == b;
  }

  /** Of three keys, the middle one blank and disabled, deleting the first drops the
      blank one as well, and the last takes over its status. */
  lemma BlankEndShiftsStatus(row: Row, a: string, b: string, json: Decoder)
    requires Ordinary(a) && Ordinary(b)
    requires row == Row(Join([a, "", b], '\n'), 3, map[1 := AUTO_DISABLED], map[], map[])
    ensures var row' := Written(row, Remaining(row, Kept(Except(0), |Keys(row.key, json)|), true, json), json);
            && Keys(row.key, json) == [a, "", b] && StatusOf(row, 2) == ENABLED
            && Keys(row'.key, json) == [b] && StatusOf(row', 0) == AUTO_DISABLED
  {
    ThreeKeysRead(a, b, json);
    KeptAfterFirst(2);
    ShiftStep(row, Kept(Except(0), |Keys(row.key, json)|), b, json);
  }

  /** With the same keys, a disabled time of the last one is left behind at a position
      that no longer exists. */
  lemma StrayTimeIsLeft(row: Row, a: string, b: string, time: int, json: Decoder)
    requires Ordinary(a) && Ordinary(b)
    requires row == Row(Join([a, "", b], '\n'), 3, map[1 := AUTO_DISABLED], map[2 := time], map[])
    ensures var row' := Written(row, Remaining(row, Kept(Except(0), |Keys(row.key, json)|), true, json), json);
            Fits(row, json) && 1 in row'.time && Keys(row'.key, json) == [b] && !Fits(row', json)
  {
    ThreeKeysRead(a, b, json);
    KeptAfterFirst(2);
    var kept := Kept(Except(0), |Keys(row.key, json)|);
    ShiftStep(row, kept, b, json);
    PartsAt(row, Keys(row.key, json), kept, true, 1);
  }

  // ---------- appending keys ----------

  /** The keys an append starts from: a text that looks like JSON but does not
      decode counts as having none. */
  function ExistingKeys(text: string, json: Decoder): seq<string> {
    if LooksLikeJson(text) then (if json(TrimSpace(text)).Some? then json(TrimSpace(text)).value else [])
    else Split(TrimChar(text, '\n'), '\n')
  }

  predicate Listed(keys: seq<string>, x: string) {
    exists k :: k in keys && TrimSpace(k) == x
  }

  method Normalized(existing: seq<string>) returns (seen: set<string>)
    ensures forall x :: x in seen <==> x != "" && Listed(existing, x)
  {
    seen := {};
    for i := 0 to |existing|
      invariant forall x :: x in seen <==> x != "" && Listed(existing[..i], x)
    {
      assert forall k :: k in existing[..i + 1] <==> k in existing[..i] || k == existing[i];
      var normalized := TrimSpace(existing[i]);
      if normalized != "" {
        seen := seen + {normalized};
      }
    }
    assert existing[..|existing|] == existing;
  }

  /** `x` occurs among the keys before any occurrence of `y`. */
  ghost predicate ComesFirst(keys: seq<string>, x: string, y: string) {
    exists p :: 0 <= p <= |keys| && Listed(keys[..p], x) && !Listed(keys[..p], y)
  }

  /** The existing keys stay as they are in front; behind them come the new keys in
      the order they first occur, trimmed, without blanks, repeats or keys that
      were already there. */
  method AppendKeys(existing: seq<string>, newKeys: seq<string>) returns (all: seq<string>, added: seq<string>)
    ensures all == existing + added
    ensures forall x :: x in added <==> x != "" && Listed(newKeys, x) && !Listed(existing, x)
    ensures forall i, j :: 0 <= i < j < |added| ==> ComesFirst(newKeys, added[i], added[j])
  {
    var seen := Normalized(existing);
    added := [];
    for i := 0 to |newKeys|
      invariant forall x :: x in seen <==> (x != "" && Listed(existing, x)) || x in added
      invariant forall x :: x in added <==> x != "" && Listed(newKeys[..i], x) && !Listed(existing, x)
      invariant forall j, k :: 0 <= j < k < |added| ==> ComesFirst(newKeys, added[j], added[k])
    {
      assert forall k :: k in newKeys[..i + 1] <==> k in newKeys[..i] || k == newKeys[i];
      var normalized := TrimSpace(newKeys[i]);
      if normalized != "" && normalized !in seen {
        assert forall x :: x in added ==> ComesFirst(newKeys, x, normalized);
        seen := seen + {normalized};
        added := added + [normalized];
      }
    }
    assert newKeys[..|newKeys|] == newKeys;
    all := existing + added;
  }

  /** An append starts from the channel's own keys, so that they stay a prefix,
      exactly when the key text is not an undecodable JSON look-alike. */
  lemma AppendKeepsKeys(text: string, json: Decoder)
    requires text != ""
    ensures ExistingKeys(text, json) == Keys(text, json) <==> !LooksLikeJson(text) || json(TrimSpace(text)).Some?
  {
  }

  /** Storing the appended list: it reads back as a whole exactly when it is readable,
      and then the old keys keep their positions, status, time and reason, the new
      ones are enabled, and the row fits. */
  lemma AppendIsStored(row: Row, added: seq<string>, json: Decoder)
    requires Fits(row, json) && row.key != "" && ExistingKeys(row.key, json) == Keys(row.key, json)
    ensures var all := Keys(row.key, json) + added;
            var row' := Written(row, row.(key := Join(all, '\n')), json);
            && (all != [] ==> (Join(all, '\n') != "" && Keys(row'.key, json) == all <==> Readable(all, json)))
            && (Readable(all, json) ==>
                  && Keys(row.key, json) <= Keys(row'.key, json) && Fits(row', json)
                  && row'.status == row.status && row'.time == row.time && row'.reason == row.reason
                  && forall i :: |Keys(row.key, json)| <= i < |all| ==> StatusOf(row', i) == ENABLED)
  {
    var all := Keys(row.key, json) + added;
    ReadsBackExactly(all, json);
    if Readable(all, json) {
      JoinEnds(all, '\n');
    }
  }
}
