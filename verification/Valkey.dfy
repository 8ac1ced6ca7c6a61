/** The Lua compare-and-append of pkg/store/valkey.go, against MemStore's. */
module Valkey {
  import opened Base
  import opened Decimal
  import opened Store

  /** The argument list: field and value of each new field, in the arbitrary order of a map range. */
  predicate Lists(args: seq<(string, string)>, fields: Fields) {
    && (forall i :: 0 <= i < |args| ==> args[i].0 in fields && fields[args[i].0] == args[i].1)
    && (forall f :: f in fields ==> exists i :: 0 <= i < |args| && args[i].0 == f)
  }

  function HSetField(hashes: map<string, Fields>, key: string, field: string, value: string): map<string, Fields> {
    hashes[key := Lookup(hashes, key).GetOr(map[])[field := value]]
  }

  function WriteAll(hashes: map<string, Fields>, key: string, args: seq<(string, string)>): map<string, Fields> {
    if args == [] then hashes
    else
      var last := args[|args| - 1];
      HSetField(WriteAll(hashes, key, args[..|args| - 1]), key, last.0, last.1)
  }

  function FieldsOf(args: seq<(string, string)>): Fields {
    if args == [] then map[] else FieldsOf(args[..|args| - 1])[args[|args| - 1].0 := args[|args| - 1].1]
  }

  lemma {:induction false} ListedFields(args: seq<(string, string)>, fields: Fields)
    requires forall i :: 0 <= i < |args| ==> args[i].0 in fields && fields[args[i].0] == args[i].1
    ensures forall f :: f in FieldsOf(args) ==> f in fields && FieldsOf(args)[f] == fields[f]
    ensures forall i :: 0 <= i < |args| ==> args[i].0 in FieldsOf(args)
  {
    if args != [] {
      var front := args[..|args| - 1];
      ListedFields(front, fields);
      forall i | 0 <= i < |args|
        ensures args[i].0 in FieldsOf(args)
      {
        if i < |front| {
          assert front[i] == args[i];
        }
      }
    }
  }

  lemma {:induction false} WriteAllMerges(hashes: map<string, Fields>, key: string, args: seq<(string, string)>)
    requires args != []
    ensures WriteAll(hashes, key, args) == hashes[key := Lookup(hashes, key).GetOr(map[]) + FieldsOf(args)]
  {
    var front, last := args[..|args| - 1], args[|args| - 1];
    var was := Lookup(hashes, key).GetOr(map[]);
    assert (was + FieldsOf(front))[last.0 := last.1] == was + FieldsOf(args);
    if front == [] {
      assert was + FieldsOf(front) == was;
    } else {
      WriteAllMerges(hashes, key, front);
    }
  }

  /** appendStageLua as a function: a string comparison, the HSETs, then HINCRBY. A reply that is no
      integer, or a count that cannot be incremented, makes the client report an error. */
  function ScriptOf(hashes: map<string, Fields>, metaKey: string, expected: int,
                    args: seq<(string, string)>, newKey: string): (Result<int>, map<string, Fields>)
  {
    var h := Lookup(hashes, metaKey).GetOr(map[]);
    if STAGE_COUNT !in h then (Err(StoreFailure), hashes)
    else if h[STAGE_COUNT] != FormatInt(expected) then
      var reply := Atoi(h[STAGE_COUNT]);
      (if reply.Some? then Ok(reply.value) else Err(StoreFailure), hashes)
    else
      var written := WriteAll(hashes, newKey, args);
      var h' := Lookup(written, metaKey).GetOr(map[]);
      var current := Atoi(if STAGE_COUNT in h' then h'[STAGE_COUNT] else "0");
      if current.None? || current.value + 1 >= TWO63 then (Err(StoreFailure), written)
      else (Ok(current.value + 1), HSetField(written, metaKey, STAGE_COUNT, FormatInt(current.value + 1)))
  }

  function SetBitAt(bitmaps: map<string, set<nat>>, key: string, offset: nat): map<string, set<nat>> {
    bitmaps[key := Lookup(bitmaps, key).GetOr({}) + {offset}]
  }

  /** The SETBITs of one pipelined batch, in order. */
  function SetEach(bitmaps: map<string, set<nat>>, key: string, offsets: seq<nat>): map<string, set<nat>> {
    if offsets == [] then bitmaps
    else SetBitAt(SetEach(bitmaps, key, offsets[..|offsets| - 1]), key, offsets[|offsets| - 1])
  }

  lemma {:induction false} SetEachMerges(bitmaps: map<string, set<nat>>, key: string, offsets: seq<nat>)
    requires offsets != []
    ensures SetEach(bitmaps, key, offsets) == bitmaps[key := Lookup(bitmaps, key).GetOr({}) + Elements(offsets)]
  {
    var front, last := offsets[..|offsets| - 1], offsets[|offsets| - 1];
    var was := Lookup(bitmaps, key).GetOr({});
    assert offsets == front + [last];
    ElementsSnoc(front, last);
    assert was + Elements(offsets) == was + Elements(front) + {last};
    hide Elements;
    if front == [] {
      assert SetEach(bitmaps, key, front) == bitmaps;
      NoElements(was);
    } else {
      SetEachMerges(bitmaps, key, front);
    }
  }

  lemma NoElements(s: set<nat>)
    ensures s + Elements([]) == s
  {
  }

  /** A batch of single-bit writes ends where MemStore's one SetBits call ends, unless the batch is
      empty and the key new: MemStore then creates an empty bitmap and ValkeyStore does nothing. */
  lemma BatchIsSetBits(st: StoreState, key: string, offsets: seq<nat>)
    ensures SetEach(st.bitmaps, key, offsets) == SetBitsOf(st, key, offsets).bitmaps <==> offsets != [] || key in st.bitmaps
  {
    if offsets == [] {
      NoElements(Lookup(st.bitmaps, key).GetOr({}));
    } else {
      SetEachMerges(st.bitmaps, key, offsets);
    }
    hide Elements;
  }

  /** The hashes and bitmaps of a Valkey server; a script, and each command of a pipeline, runs
      atomically on it. */
  class ValkeyStore {
    var hashes: map<string, Fields>
    var bitmaps: map<string, set<nat>>

    /** The batch with nothing interleaved; Protocol interleaves its single bits. */
    method SetBits(key: string, offsets: seq<nat>)
      modifies this`bitmaps
      ensures bitmaps == SetEach(old(bitmaps), key, offsets)
    {
      if |offsets| == 0 {
        return;
      }
      for i := 0 to |offsets|
        invariant bitmaps == SetEach(old(bitmaps), key, offsets[..i])
      {
        assert offsets[..i + 1][..i] == offsets[..i];
        var bm := if key in bitmaps then bitmaps[key] else {};
        bitmaps := bitmaps[key := bm + {offsets[i]}];
      }
      assert offsets[..|offsets|] == offsets;
    }

    method GetBits(key: string, offsets: seq<nat>) returns (result: seq<bool>)
      ensures result == GetBitsOf(EMPTY_STORE.(bitmaps := bitmaps), key, offsets)
    {
      if |offsets| == 0 {
        return [];
      }
      var buf := new bool[|offsets|];
      for i := 0 to |offsets|
        invariant forall j :: 0 <= j < i ==> buf[j] == (key in bitmaps && offsets[j] in bitmaps[key])
      {
        buf[i] := key in bitmaps && offsets[i] in bitmaps[key];
      }
      result := buf[..];
    }

    method HSet(key: string, field: string, value: string)
      modifies this`hashes
      ensures hashes == HSetField(old(hashes), key, field, value)
    {
      if key !in hashes {
        hashes := hashes[key := map[]];
      }
      hashes := hashes[key := hashes[key][field := value]];
    }

    method AppendStage(metaKey: string, expected: int, args: seq<(string, string)>, newKey: string)
      returns (r: Result<int>)
      modifies this`hashes
      ensures (r, hashes) == ScriptOf(old(hashes), metaKey, expected, args, newKey)
    {
      var arg1 := FormatInt(expected);
      var h := if metaKey in hashes then hashes[metaKey] else map[];
      if STAGE_COUNT !in h {
        return Err(StoreFailure);
      }
      if h[STAGE_COUNT] != arg1 {
        var reply := Atoi(h[STAGE_COUNT]);
        return if reply.Some? then Ok(reply.value) else Err(StoreFailure);
      }
      for i := 0 to |args|
        invariant hashes == WriteAll(old(hashes), newKey, args[..i])
      {
        assert args[..i + 1][..i] == args[..i];
        HSet(newKey, args[i].0, args[i].1);
      }
      assert args[..|args|] == args;
      h := if metaKey in hashes then hashes[metaKey] else map[];
      var current := Atoi(if STAGE_COUNT in h then h[STAGE_COUNT] else "0");
      if current.None? || current.value + 1 >= TWO63 {
        return Err(StoreFailure);
      }
      HSet(metaKey, STAGE_COUNT, FormatInt(current.value + 1));
      r := Ok(current.value + 1);
    }
  }

  /** Whether an old hash, overwritten field by field with fields, becomes exactly fields. */
  predicate CoveredBy(was: Option<Fields>, fields: Fields) {
    was.None? || was.value.Keys <= fields.Keys
  }

  /** When the two stores agree on an append. A winner must find the new key free of other fields;
      a loser must read a count that both parsers read alike and that is not the expected one. */
  predicate AgreementHolds(hashes: map<string, Fields>, metaKey: string, expected: nat, fields: Fields, newKey: string) {
    metaKey in hashes ==>
      && STAGE_COUNT in hashes[metaKey]
      && var count := hashes[metaKey][STAGE_COUNT];
         if count == Format(expected) then CoveredBy(Lookup(hashes, newKey), fields)
         else Scan(count) == Atoi(count) && Scan(count) != Some(expected)
  }

  lemma MergedExactly(was: Option<Fields>, fields: Fields)
    ensures was.GetOr(map[]) + fields == fields <==> CoveredBy(was, fields)
  {
    if was.Some? {
      var all := was.value + fields;
      assert all.Keys == was.value.Keys + fields.Keys;
      if CoveredBy(was, fields) {
        assert all == fields;
      }
    } else {
      assert map[] + fields == fields;
    }
  }

  /** The script, run by the winner of the race. */
  lemma ScriptWins(hashes: map<string, Fields>, metaKey: string, expected: nat, fields: Fields, args: seq<(string, string)>, newKey: string)
    requires metaKey != newKey && metaKey in hashes && Lookup(hashes[metaKey], STAGE_COUNT) == Some(Format(expected))
    requires expected + 1 < TWO63 && Lists(args, fields) && args != []
    ensures ScriptOf(hashes, metaKey, expected, args, newKey) ==
      (Ok(expected + 1), hashes[newKey := Lookup(hashes, newKey).GetOr(map[]) + fields]
                               [metaKey := hashes[metaKey][STAGE_COUNT := Format(expected + 1)]])
  {
    hide Format, Atoi, WriteAll, FieldsOf, Scan;
    PrintParse(expected);
    WriteAllMerges(hashes, newKey, args);
    ListedFields(args, fields);
    assert FieldsOf(args) == fields;
  }

  /** The script and MemStore.AppendStage return the same value and leave the same hashes exactly
      when AgreementHolds. */
  lemma AppendsAgreeExactly(st: StoreState, metaKey: string, expected: nat, fields: Fields, args: seq<(string, string)>, newKey: string)
    requires metaKey != newKey && expected + 1 < TWO63 && Lists(args, fields) && args != []
    ensures var (r, st') := AppendStageOf(st, metaKey, expected, fields, newKey);
      (r, st'.hashes) == ScriptOf(st.hashes, metaKey, expected, args, newKey)
      <==> AgreementHolds(st.hashes, metaKey, expected, fields, newKey)
  {
    hide Format, Atoi, Scan, WriteAll, CoveredBy;
    if metaKey in st.hashes && STAGE_COUNT in st.hashes[metaKey] {
      var h := st.hashes[metaKey];
      PrintParse(expected);
      if h[STAGE_COUNT] == Format(expected) {
        ScriptWins(st.hashes, metaKey, expected, fields, args, newKey);
        hide ScriptOf;
        MergedExactly(Lookup(st.hashes, newKey), fields);
        var counted := h[STAGE_COUNT := Format(expected + 1)];
        var merged := Lookup(st.hashes, newKey).GetOr(map[]) + fields;
        assert st.hashes[metaKey := counted][newKey := fields][newKey] == fields;
        assert st.hashes[newKey := merged][metaKey := counted][newKey] == merged;
        assert st.hashes[newKey := fields][metaKey := counted] == st.hashes[metaKey := counted][newKey := fields];
      } else if Scan(h[STAGE_COUNT]) == Some(expected) {
        AppendMoves(st, metaKey, expected, fields, newKey);
      }
    }
  }

  /** A MemStore that appends changes the stored count. */
  lemma AppendMoves(st: StoreState, metaKey: string, expected: nat, fields: Fields, newKey: string)
    requires metaKey != newKey && metaKey in st.hashes && expected + 1 < TWO63
    requires STAGE_COUNT in st.hashes[metaKey] && Scan(st.hashes[metaKey][STAGE_COUNT]) == Some(expected)
    ensures AppendStageOf(st, metaKey, expected, fields, newKey).1.hashes != st.hashes
  {
    hide Format, Scan;
    PrintParse(expected + 1);
    var st' := AppendStageOf(st, metaKey, expected, fields, newKey).1;
    assert st'.hashes[metaKey][STAGE_COUNT] == Format(expected + 1);
  }

  /** In particular they agree whenever the count is a canonical decimal and the new key is free. */
  lemma AppendsAgree(st: StoreState, metaKey: string, expected: nat, fields: Fields, args: seq<(string, string)>, newKey: string)
    requires metaKey != newKey && metaKey in st.hashes && newKey !in st.hashes
    requires STAGE_COUNT in st.hashes[metaKey] && Canonical(st.hashes[metaKey][STAGE_COUNT])
    requires Value(st.hashes[metaKey][STAGE_COUNT]) < TWO63 && expected + 1 < TWO63
    requires Lists(args, fields) && args != []
    ensures var (r, st') := AppendStageOf(st, metaKey, expected, fields, newKey);
      (r, st'.hashes) == ScriptOf(st.hashes, metaKey, expected, args, newKey)
  {
    hide Format, Value, Scan, Atoi, AppendStageOf, ScriptOf;
    var v := st.hashes[metaKey][STAGE_COUNT];
    FormatOfValue(v);
    PrintParse(Value(v));
    AppendsAgreeExactly(st, metaKey, expected, fields, args, newKey);
  }

  /** And the count stays canonical, so agreement carries over to the next append. */
  lemma CountStaysCanonical(st: StoreState, metaKey: string, expected: nat, fields: Fields, newKey: string)
    requires metaKey != newKey && metaKey in st.hashes
    requires STAGE_COUNT in st.hashes[metaKey] && Canonical(st.hashes[metaKey][STAGE_COUNT])
    requires Value(st.hashes[metaKey][STAGE_COUNT]) + 1 < TWO63
    ensures var (_, st') := AppendStageOf(st, metaKey, expected, fields, newKey);
      metaKey in st'.hashes && STAGE_COUNT in st'.hashes[metaKey] && Canonical(st'.hashes[metaKey][STAGE_COUNT])
  {
    hide Format, Value, Scan, Canonical;
    var v := st.hashes[metaKey][STAGE_COUNT];
    FormatOfValue(v);
    PrintParse(Value(v));
    FormatIsCanonical(Value(v) + 1);
  }

  /** Without the canonical spelling they differ: MemStore appends, the script declines. */
  lemma DisagreementExample()
    ensures var st := EMPTY_STORE.(hashes := map["meta" := map[STAGE_COUNT := "01"]]);
      && AppendStageOf(st, "meta", 1, map["m" := "8"], "new").0 == Ok(2)
      && ScriptOf(st.hashes, "meta", 1, [("m", "8")], "new").0 == Ok(1)
  {
    var v := "01";
    assert v[..1] == "0" && v[..1][..0] == "";
    assert Value("0") == 0 && Value(v) == 1;
    DigitRunOfDigits(v);
    assert v[..2] == v;
  }
}
