/** The browser's localStorage: an ordered collection of string keys, each
    with a string value. `key(i)` enumerates keys in storage order; the model
    takes that order to be insertion order (a new key goes to the end, an
    overwrite keeps its place). Writes never fail in the model. */
module Storage {
  import opened Wrappers

  type Entries = seq<(string, string)>

  function Keys(e: Entries): (ks: seq<string>)
    ensures |ks| == |e| && forall i :: 0 <= i < |e| ==> ks[i] == e[i].0
  {
    if e == [] then [] else [e[0].0] + Keys(e[1..])
  }

  predicate DistinctKeys(e: Entries) {
    forall i, j :: 0 <= i < j < |e| ==> e[i].0 != e[j].0
  }

  /** localStorage.getItem: the value stored under k, or null. */
  function Lookup(e: Entries, k: string): Option<string> {
    if e == [] then None else if e[0].0 == k then Some(e[0].1) else Lookup(e[1..], k)
  }

  /** localStorage.setItem. */
  function Put(e: Entries, k: string, v: string): Entries {
    if e == [] then [(k, v)]
    else if e[0].0 == k then [(k, v)] + e[1..]
    else [e[0]] + Put(e[1..], k, v)
  }

  /** localStorage.removeItem. */
  function Delete(e: Entries, k: string): Entries {
    if e == [] then []
    else if e[0].0 == k then Delete(e[1..], k)
    else [e[0]] + Delete(e[1..], k)
  }

  lemma {:induction false} LookupPut(e: Entries, k: string, v: string, k': string)
    ensures Lookup(Put(e, k, v), k') == if k' == k then Some(v) else Lookup(e, k')
  {
    if e != [] && e[0].0 != k {
      LookupPut(e[1..], k, v, k');
    }
  }

  lemma {:induction false} LookupDelete(e: Entries, k: string, k': string)
    ensures Lookup(Delete(e, k), k') == if k' == k then None else Lookup(e, k')
  {
    if e != [] {
      LookupDelete(e[1..], k, k');
    }
  }

  lemma {:induction false} LookupIn(e: Entries, k: string)
    ensures Lookup(e, k).Some? <==> k in Keys(e)
  {
    if e != [] {
      LookupIn(e[1..], k);
      assert Keys(e) == [e[0].0] + Keys(e[1..]);
    }
  }

  /** Overwriting keeps the storage order; a new key is appended. */
  lemma {:induction false} PutShape(e: Entries, k: string, v: string)
    ensures k in Keys(e) ==> |Put(e, k, v)| == |e| && Keys(Put(e, k, v)) == Keys(e)
    ensures k !in Keys(e) ==> Put(e, k, v) == e + [(k, v)]
  {
    if e != [] {
      PutShape(e[1..], k, v);
      assert Keys(e) == [e[0].0] + Keys(e[1..]);
      if e[0].0 != k {
        assert Keys(Put(e, k, v)) == [e[0].0] + Keys(Put(e[1..], k, v));
      } else {
        assert Keys(Put(e, k, v)) == [k] + Keys(e[1..]);
      }
    }
  }

  lemma {:induction false} PutKeepsDistinct(e: Entries, k: string, v: string)
    requires DistinctKeys(e)
    ensures DistinctKeys(Put(e, k, v))
  {
    PutShape(e, k, v);
    var r := Put(e, k, v);
    forall i, j | 0 <= i < j < |r| ensures r[i].0 != r[j].0 {
      if k in Keys(e) {
        assert Keys(r)[i] == Keys(e)[i] && Keys(r)[j] == Keys(e)[j];
      } else if j == |e| {
        assert Keys(e)[i] == e[i].0;
      }
    }
  }

  /** Writing back the value already stored changes nothing. */
  lemma {:induction false} PutSame(e: Entries, k: string, v: string)
    requires Lookup(e, k) == Some(v)
    ensures Put(e, k, v) == e
  {
    if e != [] && e[0].0 != k {
      PutSame(e[1..], k, v);
    }
  }

  class LocalStorage {
    var entries: Entries

    constructor ()
      ensures entries == []
    {
      entries := [];
    }

    function GetItem(k: string): Option<string>
      reads this
    {
      Lookup(entries, k)
    }

    method SetItem(k: string, v: string)
      modifies this
      ensures entries == Put(old(entries), k, v)
    {
      entries := Put(entries, k, v);
    }

    method RemoveItem(k: string)
      modifies this
      ensures entries == Delete(old(entries), k)
    {
      entries := Delete(entries, k);
    }
  }
}
