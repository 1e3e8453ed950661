/**
  The layout documents as value trees, with the evaluation rule of a
  JavaScript object literal: entries are assigned left to right, so a key
  written twice keeps the position of its first occurrence and the value of
  its last one.
*/
module Json {
  import opened Wrappers

  datatype Json =
    | JNull
    | JBool(b: bool)
    | JNum(n: int)
    | JStr(s: string)
    | JArr(items: seq<Json>)
    | JObj(members: seq<Member>)

  datatype Member = Member(key: string, value: Json)

  function Keys(ms: seq<Member>): (r: seq<string>)
    ensures |r| == |ms| && forall i :: 0 <= i < |ms| ==> r[i] == ms[i].key
  {
    seq(|ms|, i requires 0 <= i < |ms| => ms[i].key)
  }

  /** A boolean member `key: b`. */
  function Flag(key: string, b: bool): Member {
    Member(key, JBool(b))
  }

  /** Property read `o[k]`: the member with key `k`, if any. */
  function Get(ms: seq<Member>, k: string): (r: Option<Json>)
    ensures r.None? <==> k !in Keys(ms)
  {
    if ms == [] then None
    else if ms[0].key == k then Some(ms[0].value)
    else Get(ms[1..], k)
  }

  /** Property assignment `o[k] = v`: an existing key is overwritten in place, a new key is appended. */
  function Put(ms: seq<Member>, k: string, v: Json): seq<Member> {
    if ms == [] then [Member(k, v)]
    else if ms[0].key == k then [Member(k, v)] + ms[1..]
    else [ms[0]] + Put(ms[1..], k, v)
  }

  /** The members of an object literal whose entries (spreads already expanded) are `entries`. */
  function Build(entries: seq<Member>): seq<Member> {
    if entries == [] then []
    else
      var last := entries[|entries| - 1];
      Put(Build(entries[..|entries| - 1]), last.key, last.value)
  }

  /** An object literal. */
  function Obj(entries: seq<Member>): Json {
    JObj(Build(entries))
  }

  /** The value written last for `k` among `entries`. */
  function LastValue(entries: seq<Member>, k: string): Option<Json> {
    if entries == [] then None
    else if entries[|entries| - 1].key == k then Some(entries[|entries| - 1].value)
    else LastValue(entries[..|entries| - 1], k)
  }

  /** Keys in order of first occurrence. */
  function Dedup(ks: seq<string>): seq<string> {
    if ks == [] then []
    else
      var d := Dedup(ks[..|ks| - 1]);
      if ks[|ks| - 1] in d then d else d + [ks[|ks| - 1]]
  }

  lemma {:induction false} PutGet(ms: seq<Member>, k: string, v: Json, k': string)
    ensures Get(Put(ms, k, v), k') == if k' == k then Some(v) else Get(ms, k')
  {
    if ms != [] && ms[0].key != k {
      PutGet(ms[1..], k, v, k');
      assert Put(ms, k, v)[1..] == Put(ms[1..], k, v);
    } else if ms != [] {
      assert Put(ms, k, v)[1..] == ms[1..];
    }
  }

  lemma KeysConcat(a: seq<Member>, b: seq<Member>)
    ensures Keys(a + b) == Keys(a) + Keys(b)
  {
  }

  lemma {:induction false} PutKeys(ms: seq<Member>, k: string, v: Json)
    ensures Keys(Put(ms, k, v)) == if k in Keys(ms) then Keys(ms) else Keys(ms) + [k]
  {
    if ms != [] {
      assert ms == [ms[0]] + ms[1..];
      KeysConcat([ms[0]], ms[1..]);
      if ms[0].key != k {
        PutKeys(ms[1..], k, v);
        KeysConcat([ms[0]], Put(ms[1..], k, v));
      } else {
        KeysConcat([Member(k, v)], ms[1..]);
      }
    }
  }

  /** Reading a key of an object literal yields the value written last for it. */
  lemma {:induction false} BuildGet(entries: seq<Member>, k: string)
    ensures Get(Build(entries), k) == LastValue(entries, k)
  {
    if entries != [] {
      var last := entries[|entries| - 1];
      BuildGet(entries[..|entries| - 1], k);
      PutGet(Build(entries[..|entries| - 1]), last.key, last.value, k);
    }
  }

  /** An object literal lists each key once, in order of its first occurrence among the entries. */
  lemma {:induction false} BuildKeys(entries: seq<Member>)
    ensures Keys(Build(entries)) == Dedup(Keys(entries))
  {
    if entries != [] {
      var n := |entries| - 1;
      BuildKeys(entries[..n]);
      assert Keys(entries[..n]) == Keys(entries)[..n];
      PutKeys(Build(entries[..n]), entries[n].key, entries[n].value);
    }
  }

  /** `Dedup` never repeats a key. */
  lemma {:induction false} DedupUnique(ks: seq<string>)
    ensures forall i, j :: 0 <= i < j < |Dedup(ks)| ==> Dedup(ks)[i] != Dedup(ks)[j]
    ensures forall x :: x in Dedup(ks) <==> x in ks
  {
    if ks != [] {
      DedupUnique(ks[..|ks| - 1]);
      assert ks == ks[..|ks| - 1] + [ks[|ks| - 1]];
    }
  }

  /** The literal reads back the value of the last entry writing `k`. */
  lemma {:induction false} LastWriter(entries: seq<Member>, i: nat, k: string)
    requires i < |entries| && entries[i].key == k
    requires forall j :: i < j < |entries| ==> entries[j].key != k
    ensures LastValue(entries, k) == Some(entries[i].value)
  {
    var n := |entries| - 1;
    if n != i {
      LastWriter(entries[..n], i, k);
    }
  }

  /** A key no entry writes reads back as missing. */
  lemma {:induction false} LastValueAbsent(entries: seq<Member>, k: string)
    requires forall j :: 0 <= j < |entries| ==> entries[j].key != k
    ensures LastValue(entries, k).None?
  {
    if entries != [] {
      LastValueAbsent(entries[..|entries| - 1], k);
    }
  }

  /** Follows a path of keys through nested objects. */
  function At(j: Json, path: seq<string>): Option<Json>
    decreases |path|
  {
    if path == [] then Some(j)
    else match j
      case JObj(ms) =>
        (match Get(ms, path[0])
         case Some(child) => At(child, path[1..])
         case None => None)
      case _ => None
  }

  /** One step of `At` into an object literal whose entry `i` is the last one writing `path[0]`. */
  lemma AtObj(entries: seq<Member>, i: nat, path: seq<string>)
    requires path != [] && i < |entries| && entries[i].key == path[0]
    requires forall j :: i < j < |entries| ==> entries[j].key != path[0]
    ensures At(Obj(entries), path) == At(entries[i].value, path[1..])
  {
    BuildGet(entries, path[0]);
    LastWriter(entries, i, path[0]);
  }

  /** A path whose first key no entry of the literal writes leads nowhere. */
  lemma AtAbsent(entries: seq<Member>, path: seq<string>)
    requires path != [] && forall j :: 0 <= j < |entries| ==> entries[j].key != path[0]
    ensures At(Obj(entries), path).None?
  {
    BuildGet(entries, path[0]);
    LastValueAbsent(entries, path[0]);
  }
  /** Property read finds the first member carrying the key. */
  lemma {:induction false} GetFirst(ms: seq<Member>, i: nat, k: string)
    requires i < |ms| && ms[i].key == k
    requires forall j :: 0 <= j < i ==> ms[j].key != k
    ensures Get(ms, k) == Some(ms[i].value)
  {
    if i > 0 {
      GetFirst(ms[1..], i - 1, k);
    }
  }

  /** One step of `At` into an object whose member `i` is the first carrying `path[0]`. */
  lemma AtMember(ms: seq<Member>, i: nat, path: seq<string>)
    requires path != [] && i < |ms| && ms[i].key == path[0]
    requires forall j :: 0 <= j < i ==> ms[j].key != path[0]
    ensures At(JObj(ms), path) == At(ms[i].value, path[1..])
  {
    GetFirst(ms, i, path[0]);
  }

  /** Assigning a key the object does not have appends it. */
  lemma {:induction false} PutAbsent(ms: seq<Member>, k: string, v: Json)
    requires k !in Keys(ms)
    ensures Put(ms, k, v) == ms + [Member(k, v)]
  {
    if ms != [] {
      assert Keys(ms)[0] == ms[0].key;
      assert Keys(ms[1..]) == Keys(ms)[1..];
      PutAbsent(ms[1..], k, v);
      assert ms == [ms[0]] + ms[1..];
    }
  }

  /** With distinct keys the literal's evaluation rule is immaterial: the object is its entries. */
  lemma {:induction false} BuildDistinct(entries: seq<Member>)
    requires forall i, j :: 0 <= i < j < |entries| ==> entries[i].key != entries[j].key
    ensures Build(entries) == entries
  {
    if entries != [] {
      var n := |entries| - 1;
      BuildDistinct(entries[..n]);
      assert Keys(entries[..n]) == Keys(entries)[..n];
      assert entries[n].key !in Keys(entries[..n]);
      PutAbsent(entries[..n], entries[n].key, entries[n].value);
      assert entries[..n] + [entries[n]] == entries;
    }
  }
}
