/** The storage contract of pkg/store/store.go as functions on the state of a MemStore, and the
    MemStore of pkg/store/memstore.go proved against them. One call is one atomic step. */
module Store {
  import opened Base
  import opened Decimal

  type Fields = map<string, string>

  datatype StoreState = StoreState(
    bitmaps: map<string, set<nat>>,
    hashes: map<string, Fields>,
    counters: map<string, int>,
    sets: map<string, set<string>>)

  const EMPTY_STORE := StoreState(map[], map[], map[], map[])
  const STAGE_COUNT: string := "stage_count"

  function SetBitsOf(st: StoreState, key: string, offsets: seq<nat>): StoreState {
    st.(bitmaps := st.bitmaps[key := Lookup(st.bitmaps, key).GetOr({}) + Elements(offsets)])
  }

  function GetBitsOf(st: StoreState, key: string, offsets: seq<nat>): seq<bool> {
    var bm := Lookup(st.bitmaps, key).GetOr({});
    seq(|offsets|, i requires 0 <= i < |offsets| => offsets[i] in bm)
  }

  function HGetAllOf(st: StoreState, key: string): Fields {
    Lookup(st.hashes, key).GetOr(map[])
  }

  function HSetOf(st: StoreState, key: string, fields: Fields): StoreState {
    st.(hashes := st.hashes[key := HGetAllOf(st, key) + fields])
  }

  /** int64 arithmetic */
  function Wrap64(x: int): int {
    (x + TWO63) % TWO64 - TWO63
  }

  function CounterAt(st: StoreState, key: string): int {
    Lookup(st.counters, key).GetOr(0)
  }

  function IncrOf(st: StoreState, key: string): StoreState {
    st.(counters := st.counters[key := Wrap64(CounterAt(st, key) + 1)])
  }

  function GetOf(st: StoreState, key: string): Option<string> {
    if key in st.counters then Some(FormatInt(st.counters[key])) else None
  }

  function MembersOf(st: StoreState, key: string): set<string> {
    Lookup(st.sets, key).GetOr({})
  }

  function SAddOf(st: StoreState, key: string, members: seq<string>): StoreState {
    st.(sets := st.sets[key := MembersOf(st, key) + Elements(members)])
  }

  function SRemOf(st: StoreState, key: string, members: seq<string>): StoreState {
    if key in st.sets then st.(sets := st.sets[key := st.sets[key] - Elements(members)]) else st
  }

  function DelOf(st: StoreState, keys: seq<string>): StoreState {
    var gone := Elements(keys);
    StoreState(st.bitmaps - gone, st.hashes - gone, st.counters - gone, st.sets - gone)
  }

  /** Compare stage_count with expected; if equal, replace the new stage's hash and advance the
      count. A missing count reads as 0. When both keys are the same the replaced hash wins. */
  function AppendStageOf(st: StoreState, metaKey: string, expected: int, fields: Fields, newKey: string): (Result<int>, StoreState) {
    if metaKey !in st.hashes then (Err(StoreFailure), st)
    else
      var h := st.hashes[metaKey];
      var current := if STAGE_COUNT in h then Scan(h[STAGE_COUNT]) else Some(0);
      if current.None? then (Err(StoreFailure), st)
      else if current.value != expected then (Ok(current.value), st)
      else
        var next := Wrap64(current.value + 1);
        (Ok(next), st.(hashes := st.hashes[metaKey := h[STAGE_COUNT := FormatInt(next)]][newKey := fields]))
  }

  // ---------------------------------------------------------------- what a later read sees

  /** A bit reads as set after SetBits exactly when it was listed or was set before. */
  lemma SetBitsThenGet(st: StoreState, key: string, offsets: seq<nat>, k: string, qs: seq<nat>, i: nat)
    requires i < |qs|
    ensures var st' := SetBitsOf(st, key, offsets);
      && |GetBitsOf(st', k, qs)| == |GetBitsOf(st, k, qs)| == |qs|
      && GetBitsOf(st', k, qs)[i] == (GetBitsOf(st, k, qs)[i] || (k == key && exists j :: 0 <= j < |offsets| && offsets[j] == qs[i]))
      && (st'.hashes, st'.counters, st'.sets) == (st.hashes, st.counters, st.sets)
  {
  }

  /** After HSet a listed field has its new value; every other field of every hash keeps its own. */
  lemma HSetThenGet(st: StoreState, key: string, fields: Fields, k: string, f: string)
    ensures var st' := HSetOf(st, key, fields);
      && Lookup(HGetAllOf(st', k), f) == (if k == key && f in fields then Some(fields[f]) else Lookup(HGetAllOf(st, k), f))
      && (st'.bitmaps, st'.counters, st'.sets) == (st.bitmaps, st.counters, st.sets)
  {
  }

  /** After Incr a counter is one higher, 2^63 - 1 going to -2^63; the others keep their values. */
  lemma IncrThenGet(st: StoreState, key: string, k: string)
    requires -TWO63 <= CounterAt(st, key) < TWO63
    ensures var st', c := IncrOf(st, key), CounterAt(st, key);
      && CounterAt(st', key) == (if c == 9223372036854775807 then -9223372036854775808 else c + 1)
      && (k != key ==> GetOf(st', k) == GetOf(st, k))
      && Atoi(GetOf(st', key).GetOr("")) == Some(CounterAt(st', key))
      && (st'.bitmaps, st'.hashes, st'.sets) == (st.bitmaps, st.hashes, st.sets)
  {
    PrintParseInt(CounterAt(IncrOf(st, key), key));
    hide FormatInt, Atoi;
  }

  /** Membership after SAdd and SRem. */
  lemma SetsThenRead(st: StoreState, key: string, members: seq<string>, k: string, m: string)
    ensures var added, removed := SAddOf(st, key, members), SRemOf(st, key, members);
      && (m in MembersOf(added, k) <==> m in MembersOf(st, k) || (k == key && m in members))
      && (m in MembersOf(removed, k) <==> m in MembersOf(st, k) && !(k == key && m in members))
      && (added.bitmaps, added.hashes, added.counters) == (st.bitmaps, st.hashes, st.counters)
      && (removed.bitmaps, removed.hashes, removed.counters) == (st.bitmaps, st.hashes, st.counters)
  {
  }

  /** After Del a listed key reads as never written, and every other as before. */
  lemma DelThenRead(st: StoreState, keys: seq<string>, k: string, offsets: seq<nat>)
    ensures var st' := DelOf(st, keys);
      && HGetAllOf(st', k) == (if k in keys then map[] else HGetAllOf(st, k))
      && GetOf(st', k) == (if k in keys then None else GetOf(st, k))
      && MembersOf(st', k) == (if k in keys then {} else MembersOf(st, k))
      && GetBitsOf(st', k, offsets) == (if k in keys then seq(|offsets|, _ => false) else GetBitsOf(st, k, offsets))
  {
  }

  lemma AppendedHashes(st: StoreState, metaKey: string, expected: int, fields: Fields, newKey: string, h: Fields)
    requires metaKey != newKey && -TWO63 <= expected < TWO63 - 1 && metaKey in st.hashes && h == HGetAllOf(st, metaKey)
    requires (if STAGE_COUNT in h then Scan(h[STAGE_COUNT]) else Some(0)) == Some(expected)
    ensures var (r, st') := AppendStageOf(st, metaKey, expected, fields, newKey);
      && r == Ok(expected + 1)
      && HGetAllOf(st', newKey) == fields
      && HGetAllOf(st', metaKey) == h[STAGE_COUNT := FormatInt(expected + 1)]
      && (forall k :: k != newKey && k != metaKey ==> HGetAllOf(st', k) == HGetAllOf(st, k))
      && (st'.bitmaps, st'.counters, st'.sets) == (st.bitmaps, st.counters, st.sets)
  {
    hide FormatInt, Scan;
    assert Wrap64(expected + 1) == expected + 1;
  }

  lemma AppendRefused(st: StoreState, metaKey: string, expected: int, fields: Fields, newKey: string, h: Fields)
    requires h == HGetAllOf(st, metaKey)
    requires metaKey !in st.hashes || (if STAGE_COUNT in h then Scan(h[STAGE_COUNT]) else Some(0)) != Some(expected)
    ensures var (r, st') := AppendStageOf(st, metaKey, expected, fields, newKey);
      var count := if STAGE_COUNT in h then Scan(h[STAGE_COUNT]) else Some(0);
      st' == st && r == if metaKey !in st.hashes || count.None? then Err(StoreFailure) else Ok(count.value)
  {
    hide FormatInt, Scan;
  }

  /** AppendStage on any store: it fails without the hash or with a count that does not parse, loses
      against another count, which it reports, and otherwise writes the new hash and advances the count.
      The other fields and hashes keep their values. */
  lemma AppendStageThenRead(st: StoreState, metaKey: string, expected: int, fields: Fields, newKey: string)
    requires metaKey != newKey && -TWO63 <= expected < TWO63 - 1
    ensures var (r, st') := AppendStageOf(st, metaKey, expected, fields, newKey);
      var h := HGetAllOf(st, metaKey);
      var count := if STAGE_COUNT in h then Scan(h[STAGE_COUNT]) else Some(0);
      if metaKey !in st.hashes || count.None? then (r, st') == (Err(StoreFailure), st)
      else if count != Some(expected) then (r, st') == (Ok(count.value), st)
      else
        && r == Ok(expected + 1)
        && HGetAllOf(st', newKey) == fields
        && (exists text :: Atoi(text) == Some(expected + 1) && HGetAllOf(st', metaKey) == h[STAGE_COUNT := text])
        && (forall k :: k != newKey && k != metaKey ==> HGetAllOf(st', k) == HGetAllOf(st, k))
        && (st'.bitmaps, st'.counters, st'.sets) == (st.bitmaps, st.counters, st.sets)
  {
    PrintParseInt(expected + 1);
    hide FormatInt, Atoi, Scan;
    var h := HGetAllOf(st, metaKey);
    var advanced := h[STAGE_COUNT := FormatInt(expected + 1)];
    hide HGetAllOf;
    if metaKey in st.hashes && (if STAGE_COUNT in h then Scan(h[STAGE_COUNT]) else Some(0)) == Some(expected) {
      AppendedHashes(st, metaKey, expected, fields, newKey, h);
      assert Atoi(FormatInt(expected + 1)) == Some(expected + 1);
    } else {
      AppendRefused(st, metaKey, expected, fields, newKey, h);
    }
  }

  class MemStore {
    var bitmaps: map<string, set<nat>>
    var hashes: map<string, Fields>
    var counters: map<string, int>
    var sets: map<string, set<string>>

    function State(): StoreState
      reads this
    {
      StoreState(bitmaps, hashes, counters, sets)
    }

    constructor ()
      ensures State() == EMPTY_STORE
    {
      bitmaps, hashes, counters, sets := map[], map[], map[], map[];
    }

    method SetBits(key: string, offsets: seq<nat>)
      modifies this
      ensures State() == SetBitsOf(old(State()), key, offsets)
    {
      if key !in bitmaps {
        bitmaps := bitmaps[key := {}];
      }
      for i := 0 to |offsets|
        invariant key in bitmaps
        invariant State() == old(State()).(bitmaps := bitmaps)
        invariant bitmaps[key] == Lookup(old(bitmaps), key).GetOr({}) + Elements(offsets[..i])
        invariant bitmaps == old(bitmaps)[key := bitmaps[key]]
      {
        ElementsSnoc(offsets[..i], offsets[i]);
        assert offsets[..i + 1] == offsets[..i] + [offsets[i]];
        bitmaps := bitmaps[key := bitmaps[key] + {offsets[i]}];
      }
      assert offsets[..|offsets|] == offsets;
    }

    method GetBits(key: string, offsets: seq<nat>) returns (result: seq<bool>)
      ensures result == GetBitsOf(State(), key, offsets)
    {
      var bm := if key in bitmaps then bitmaps[key] else {};
      var buf := new bool[|offsets|];
      for i := 0 to |offsets|
        invariant forall j :: 0 <= j < i ==> buf[j] == (offsets[j] in bm)
      {
        buf[i] := offsets[i] in bm;
      }
      result := buf[..];
    }

    method HGetAll(key: string) returns (fields: Fields)
      ensures fields == HGetAllOf(State(), key)
    {
      fields := if key in hashes then hashes[key] else map[];
    }

    method HSet(key: string, fields: Fields)
      modifies this
      ensures State() == HSetOf(old(State()), key, fields)
    {
      if key !in hashes {
        hashes := hashes[key := map[]];
      }
      hashes := hashes[key := hashes[key] + fields];
    }

    method Incr(key: string) returns (value: int)
      modifies this
      ensures State() == IncrOf(old(State()), key)
      ensures value == CounterAt(State(), key)
    {
      var before := if key in counters then counters[key] else 0;
      counters := counters[key := Wrap64(before + 1)];
      value := counters[key];
    }

    method Get(key: string) returns (value: Option<string>)
      ensures value == GetOf(State(), key)
    {
      if key in counters {
        return Some(FormatInt(counters[key]));
      }
      value := None;
    }

    method SAdd(key: string, members: seq<string>)
      modifies this
      ensures State() == SAddOf(old(State()), key, members)
    {
      if key !in sets {
        sets := sets[key := {}];
      }
      for i := 0 to |members|
        invariant key in sets
        invariant State() == old(State()).(sets := sets)
        invariant sets[key] == Lookup(old(sets), key).GetOr({}) + Elements(members[..i])
        invariant sets == old(sets)[key := sets[key]]
      {
        ElementsSnoc(members[..i], members[i]);
        assert members[..i + 1] == members[..i] + [members[i]];
        sets := sets[key := sets[key] + {members[i]}];
      }
      assert members[..|members|] == members;
    }

    method SRem(key: string, members: seq<string>)
      modifies this
      ensures State() == SRemOf(old(State()), key, members)
    {
      if key !in sets {
        return;
      }
      for i := 0 to |members|
        invariant key in sets
        invariant State() == old(State()).(sets := sets)
        invariant sets[key] == old(sets)[key] - Elements(members[..i])
        invariant sets == old(sets)[key := sets[key]]
      {
        ElementsSnoc(members[..i], members[i]);
        assert members[..i + 1] == members[..i] + [members[i]];
        sets := sets[key := sets[key] - {members[i]}];
      }
      assert members[..|members|] == members;
    }

    /** The members in an arbitrary order, each once. */
    method SMembers(key: string) returns (out: seq<string>)
      ensures Elements(out) == MembersOf(State(), key)
      ensures |out| == |MembersOf(State(), key)|
    {
      var left := if key in sets then sets[key] else {};
      ghost var all := left;
      out := [];
      while left != {}
        invariant left <= all
        invariant Elements(out) == all - left
        invariant |out| + |left| == |all|
        decreases |left|
      {
        var m :| m in left;
        ElementsSnoc(out, m);
        left := left - {m};
        out := out + [m];
      }
    }

    method Del(keys: seq<string>)
      modifies this
      ensures State() == DelOf(old(State()), keys)
    {
      for i := 0 to |keys|
        invariant bitmaps == old(bitmaps) - Elements(keys[..i])
        invariant hashes == old(hashes) - Elements(keys[..i])
        invariant counters == old(counters) - Elements(keys[..i])
        invariant sets == old(sets) - Elements(keys[..i])
      {
        MinusSnoc(old(bitmaps), keys[..i], keys[i]);
        MinusSnoc(old(hashes), keys[..i], keys[i]);
        MinusSnoc(old(counters), keys[..i], keys[i]);
        MinusSnoc(old(sets), keys[..i], keys[i]);
        assert keys[..i + 1] == keys[..i] + [keys[i]];
        bitmaps := bitmaps - {keys[i]};
        hashes := hashes - {keys[i]};
        counters := counters - {keys[i]};
        sets := sets - {keys[i]};
      }
      assert keys[..|keys|] == keys;
    }

    method AppendStage(metaKey: string, expected: int, fields: Fields, newKey: string) returns (r: Result<int>)
      modifies this
      ensures (r, State()) == AppendStageOf(old(State()), metaKey, expected, fields, newKey)
    {
      if metaKey !in hashes {
        return Err(StoreFailure);
      }
      var h := hashes[metaKey];
      var current := 0;
      if STAGE_COUNT in h {
        var parsed := Scan(h[STAGE_COUNT]);
        if parsed.None? {
          return Err(StoreFailure);
        }
        current := parsed.value;
      }
      if current != expected {
        return Ok(current);
      }
      current := Wrap64(current + 1);
      hashes := hashes[metaKey := h[STAGE_COUNT := FormatInt(current)]][newKey := fields];
      r := Ok(current);
    }
  }
}
