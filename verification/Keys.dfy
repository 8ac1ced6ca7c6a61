/** The key functions of pkg/bloom/filter.go, and exactly when two filters' keys can collide. */
module Keys {
  import opened Decimal

  datatype Key =
    | RegistryKey
    | MetaKey(name: string)
    | StageMetaKey(name: string, stage: nat)
    | FillKey(name: string, stage: nat)
    | ShardKey(name: string, stage: nat, shard: nat)

  /** The filter names in use, and which stages a filter of each name may come to have. */
  datatype Names = Names(all: iset<string>, stages: string -> nat -> bool) {
    predicate MayHave(name: string, i: nat) {
      stages(name)(i)
    }
  }

  /** The keys a filter with these stages can come to hold. */
  predicate Storable(stages: nat -> bool, k: Key) {
    k.StageMetaKey? || k.FillKey? || k.ShardKey? ==> stages(k.stage)
  }

  /** What follows "bf:<name>:" in a key. */
  function Suffix(k: Key): string
    requires !k.RegistryKey?
  {
    match k
    case MetaKey(_) => "meta"
    case StageMetaKey(_, i) => "s" + Format(i) + ":" + "meta"
    case FillKey(_, i) => "s" + Format(i) + ":" + "meta" + ":" + "fill"
    case ShardKey(_, i, j) => "s" + Format(i) + ":" + ("sh" + Format(j))
  }

  function Render(k: Key): string {
    if k.RegistryKey? then "bf" + ":" + "registry" else "bf" + ":" + (k.name + ":" + Suffix(k))
  }

  /** The keys as they are spelled. */
  lemma Spelling(name: string, i: nat, j: nat)
    ensures Render(RegistryKey) == "bf:registry"
    ensures Render(MetaKey(name)) == "bf:" + name + ":meta"
    ensures Render(StageMetaKey(name, i)) == "bf:" + name + (":s" + Format(i) + ":meta")
    ensures Render(FillKey(name, i)) == "bf:" + name + (":s" + Format(i) + ":meta:fill")
    ensures Render(ShardKey(name, i, j)) == "bf:" + name + (":s" + Format(i) + ":sh" + Format(j))
  {
    Literals();
    Spelled(MetaKey(name));
    Spelled(StageMetaKey(name, i));
    Spelled(FillKey(name, i));
    Spelled(ShardKey(name, i, j));
    Tails(Format(i), Format(j));
    hide Format;
  }

  lemma Spelled(k: Key)
    requires !k.RegistryKey?
    ensures Render(k) == "bf:" + k.name + (":" + Suffix(k))
  {
    hide Suffix;
    Literals();
    Regrouped("bf" + ":", k.name, ":", Suffix(k));
  }

  lemma Literals()
    ensures "bf" + ":" == "bf:" && "bf" + ":" + "registry" == "bf:registry" && ":" + "meta" == ":meta"
  {
  }

  lemma Regrouped(a: string, name: string, c: string, tail: string)
    ensures a + (name + c + tail) == a + name + (c + tail)
  {
  }

  lemma Tails(d: string, e: string)
    ensures ":" + ("s" + d + ":" + "meta") == ":s" + d + ":meta"
    ensures ":" + ("s" + d + ":" + "meta" + ":" + "fill") == ":s" + d + ":meta:fill"
    ensures ":" + ("s" + d + ":" + ("sh" + e)) == ":s" + d + ":sh" + e
  {
    assert ":" + "s" == ":s" && ":" + "meta" == ":meta" && ":" + "meta" + ":" + "fill" == ":meta:fill" && ":" + "sh" == ":sh";
  }

  /** The colon-separated fields of a string, and their inverse. */
  function Split(s: string): (r: seq<string>)
    ensures r != []
  {
    if s == "" then [""]
    else
      var rest := Split(s[1..]);
      if s[0] == ':' then [""] + rest else [[s[0]] + rest[0]] + rest[1..]
  }

  function Join(fields: seq<string>): string {
    if fields == [] then ""
    else if |fields| == 1 then fields[0]
    else fields[0] + ":" + Join(fields[1..])
  }

  lemma {:induction false} JoinOfSplit(s: string)
    ensures Join(Split(s)) == s
  {
    if s != "" {
      var rest := Split(s[1..]);
      JoinOfSplit(s[1..]);
      if s[0] == ':' {
        assert Split(s)[1..] == rest;
        assert Join(Split(s)) == "" + ":" + Join(rest);
      } else {
        var head := [s[0]] + rest[0];
        assert Split(s) == [head] + rest[1..];
        if |rest| == 1 {
          assert Join(Split(s)) == head;
        } else {
          assert Split(s)[1..] == rest[1..];
          assert Join(Split(s)) == [s[0]] + (rest[0] + ":" + Join(rest[1..]));
        }
      }
      assert s == [s[0]] + s[1..];
    }
  }

  lemma {:induction false} SplitConcat(a: string, b: string)
    ensures Split(a + ":" + b) == Split(a) + Split(b)
  {
    var all := a + ":" + b;
    if a == "" {
      assert all[1..] == b;
    } else {
      assert all[1..] == a[1..] + ":" + b;
      SplitConcat(a[1..], b);
    }
  }

  predicate Plain(s: string) {
    ':' !in s
  }

  lemma {:induction false} SplitPlain(s: string)
    requires Plain(s)
    ensures Split(s) == [s]
  {
    if s != "" {
      SplitPlain(s[1..]);
      assert s == [s[0]] + s[1..];
    }
  }

  lemma PlainDecimal(prefix: string, i: nat)
    requires Plain(prefix)
    ensures Plain(prefix + Format(i)) && Split(prefix + Format(i)) == [prefix + Format(i)]
  {
    var s := prefix + Format(i);
    forall c | c in Format(i)
      ensures c != ':'
    {
    }
    SplitPlain(s);
  }

  /** What follows the filter name in a key, field by field. */
  function Tail(k: Key): seq<string>
    requires !k.RegistryKey?
  {
    match k
    case MetaKey(_) => ["meta"]
    case StageMetaKey(_, i) => ["s" + Format(i), "meta"]
    case FillKey(_, i) => ["s" + Format(i), "meta", "fill"]
    case ShardKey(_, i, j) => ["s" + Format(i), "sh" + Format(j)]
  }

  lemma Words()
    ensures Split("bf") == ["bf"] && Split("registry") == ["registry"]
    ensures Split("meta") == ["meta"] && Split("fill") == ["fill"]
  {
    SplitPlain("bf");
    SplitPlain("registry");
    SplitPlain("meta");
    SplitPlain("fill");
  }

  lemma PlainWords()
    ensures Plain("meta") && Plain("fill") && Plain("s") && Plain("sh")
  {
  }

  lemma TwoFields(a: string, b: string)
    requires Plain(a) && Plain(b)
    ensures Split(a + ":" + b) == [a, b]
  {
    hide Split;
    SplitPlain(a);
    SplitPlain(b);
    SplitConcat(a, b);
  }

  lemma SuffixFields(k: Key)
    requires !k.RegistryKey?
    ensures Split(Suffix(k)) == Tail(k)
  {
    hide Format, Split, Plain;
    PlainWords();
    Words();
    if !k.MetaKey? {
      var si := "s" + Format(k.stage);
      PlainDecimal("s", k.stage);
      if k.ShardKey? {
        PlainDecimal("sh", k.shard);
        TwoFields(si, "sh" + Format(k.shard));
      } else {
        TwoFields(si, "meta");
        if k.FillKey? {
          SplitConcat(si + ":" + "meta", "fill");
        }
      }
    }
  }

  lemma RenderFields(k: Key)
    ensures Split(Render(k)) == if k.RegistryKey? then ["bf", "registry"] else ["bf"] + Split(k.name) + Tail(k)
  {
    Words();
    hide Split, Suffix, Tail;
    if k.RegistryKey? {
      SplitConcat("bf", "registry");
    } else {
      SuffixFields(k);
      SplitConcat(k.name, Suffix(k));
      SplitConcat("bf", k.name + ":" + Suffix(k));
    }
  }

  /** b is a followed by the suffix of a stage a can have, as in "a" and "a:s0". */
  ghost predicate Extends(a: string, stages: nat -> bool, b: string) {
    exists i: nat :: stages(i) && b == a + ":s" + Format(i)
  }

  ghost predicate Compatible(a: string, stagesA: nat -> bool, b: string, stagesB: nat -> bool) {
    !Extends(a, stagesA, b) && !Extends(b, stagesB, a)
  }

  lemma PrefixedInjective(prefix: string, a: nat, b: nat)
    requires prefix + Format(a) == prefix + Format(b)
    ensures a == b
  {
    assert (prefix + Format(a))[|prefix|..] == Format(a);
    assert (prefix + Format(b))[|prefix|..] == Format(b);
    FormatInjective(a, b);
  }

  lemma SameTail(k1: Key, k2: Key)
    requires !k1.RegistryKey? && !k2.RegistryKey? && k1.name == k2.name && Tail(k1) == Tail(k2)
    ensures k1 == k2
  {
    var t1, t2 := Tail(k1), Tail(k2);
    if !k1.MetaKey? {
      assert t1[0] == t2[0];
      PrefixedInjective("s", k1.stage, k2.stage);
      assert t1[1] == t2[1] && t1[1][0] == t2[1][0];
    }
    if k1.ShardKey? {
      PrefixedInjective("sh", k1.shard, k2.shard);
    }
  }

  lemma {:induction false} SplitInjective(a: string, b: string)
    requires Split(a) == Split(b)
    ensures a == b
  {
    JoinOfSplit(a);
    JoinOfSplit(b);
  }

  /** Only a stage-meta key can equal a shorter-tailed key, and then that is a longer name's meta key. */
  lemma ShorterTail(k1: Key, k2: Key)
    requires !k1.RegistryKey? && !k2.RegistryKey?
    requires Split(k1.name) + Tail(k1) == Split(k2.name) + Tail(k2) && |Tail(k1)| < |Tail(k2)|
    ensures k2.StageMetaKey? && k1.name == k2.name + ":s" + Format(k2.stage)
  {
    hide Split, Format;
    var n1, n2, t1, t2 := Split(k1.name), Split(k2.name), Tail(k1), Tail(k2);
    SameLast(n1, t1, n2, t2);
    assert t1[|t1| - 1][0] == t2[|t2| - 1][0];
    assert k1.MetaKey? && k2.StageMetaKey?;
    OneLonger(n1, t1, n2, t2);
    PlainDecimal("s", k2.stage);
    SplitConcat(k2.name, t2[0]);
    SplitInjective(k1.name, k2.name + ":" + t2[0]);
    assert k1.name == k2.name + ":s" + Format(k2.stage);
  }

  lemma SameLast<T>(n1: seq<T>, t1: seq<T>, n2: seq<T>, t2: seq<T>)
    requires n1 + t1 == n2 + t2 && t1 != [] && t2 != []
    ensures t1[|t1| - 1] == t2[|t2| - 1]
  {
    var all := n1 + t1;
    assert all[|all| - 1] == t1[|t1| - 1];
    assert (n2 + t2)[|all| - 1] == t2[|t2| - 1];
  }

  lemma OneLonger<T>(n1: seq<T>, t1: seq<T>, n2: seq<T>, t2: seq<T>)
    requires n1 + t1 == n2 + t2 && |t1| == 1 && |t2| == 2
    ensures n1 == n2 + [t2[0]]
  {
    assert |n1| == |n2| + 1;
    assert n1 == (n1 + t1)[..|n1|];
    assert n2 + [t2[0]] == (n2 + t2)[..|n1|];
  }

  /** Whether the two keys are one filter's, the registry's, or storable keys of compatible names. */
  ghost predicate Apart(k1: Key, stages1: nat -> bool, k2: Key, stages2: nat -> bool) {
    || k1.RegistryKey? || k2.RegistryKey? || k1.name == k2.name
    || (Storable(stages1, k1) && Storable(stages2, k2) && Compatible(k1.name, stages1, k2.name, stages2))
  }

  /** Such keys never collide: rendering is injective on them. */
  lemma RenderInjective(k1: Key, stages1: nat -> bool, k2: Key, stages2: nat -> bool)
    requires Render(k1) == Render(k2) && Apart(k1, stages1, k2, stages2)
    ensures k1 == k2
  {
    RenderFields(k1);
    RenderFields(k2);
    if k1.RegistryKey? || k2.RegistryKey? {
      assert |Split(Render(k1))| == |Split(Render(k2))|;
    } else {
      var n1, n2, t1, t2 := Split(k1.name), Split(k2.name), Tail(k1), Tail(k2);
      BodyEqual(n1, t1, n2, t2);
      if |t1| < |t2| {
        ShorterTail(k1, k2);
      } else if |t2| < |t1| {
        ShorterTail(k2, k1);
      } else {
        assert (n1 + t1)[..|n1|] == n1 && (n2 + t2)[..|n1|] == n2;
        assert (n1 + t1)[|n1|..] == t1 && (n2 + t2)[|n1|..] == t2;
        SplitInjective(k1.name, k2.name);
        SameTail(k1, k2);
      }
    }
  }

  lemma BodyEqual(n1: seq<string>, t1: seq<string>, n2: seq<string>, t2: seq<string>)
    requires ["bf"] + n1 + t1 == ["bf"] + n2 + t2
    ensures n1 + t1 == n2 + t2
  {
    assert (["bf"] + n1 + t1)[1..] == n1 + t1;
    assert (["bf"] + n2 + t2)[1..] == n2 + t2;
  }

  predicate Owns(name: string, stages: nat -> bool, k: Key) {
    !k.RegistryKey? && k.name == name && Storable(stages, k)
  }

  ghost predicate KeysDisjoint(a: string, stagesA: nat -> bool, b: string, stagesB: nat -> bool) {
    forall k1: Key, k2: Key :: Owns(a, stagesA, k1) && Owns(b, stagesB, k2) ==> Render(k1) != Render(k2)
  }

  /** Exactly when two filters are isolated: the keys they can come to hold are disjoint if and only
      if neither name is the other followed by ":s" and the number of a stage the other can have. */
  lemma IsolationExactly(a: string, stagesA: nat -> bool, b: string, stagesB: nat -> bool)
    requires a != b
    ensures KeysDisjoint(a, stagesA, b, stagesB) <==> Compatible(a, stagesA, b, stagesB)
  {
    if Compatible(a, stagesA, b, stagesB) {
      forall k1: Key, k2: Key | Owns(a, stagesA, k1) && Owns(b, stagesB, k2)
        ensures Render(k1) != Render(k2)
      {
        if Render(k1) == Render(k2) {
          RenderInjective(k1, stagesA, k2, stagesB);
        }
      }
    } else if Extends(a, stagesA, b) {
      ExtensionClashes(a, stagesA, b, stagesB);
    } else {
      ExtensionClashes(b, stagesB, a, stagesA);
    }
  }

  lemma ExtensionClashes(a: string, stagesA: nat -> bool, b: string, stagesB: nat -> bool)
    requires Extends(a, stagesA, b)
    ensures !KeysDisjoint(a, stagesA, b, stagesB) && !KeysDisjoint(b, stagesB, a, stagesA)
  {
    var i: nat :| stagesA(i) && b == a + ":s" + Format(i);
    assert Owns(b, stagesB, MetaKey(b)) && Owns(a, stagesA, StageMetaKey(a, i));
    assert b + ":" + "meta" == a + ":" + ("s" + Format(i) + ":" + "meta");
    assert Render(MetaKey(b)) == Render(StageMetaKey(a, i));
  }

  /** The names the API admits contain no colon, so any two of them are compatible,
      whatever stages they may have. */
  lemma PlainNamesCompatible(a: string, stagesA: nat -> bool, b: string, stagesB: nat -> bool)
    requires Plain(a) && Plain(b)
    ensures Compatible(a, stagesA, b, stagesB)
  {
    forall i: nat
      ensures b != a + ":s" + Format(i) && a != b + ":s" + Format(i)
    {
      assert (a + ":s" + Format(i))[|a|] == ':';
      assert (b + ":s" + Format(i))[|b|] == ':';
    }
  }
}
