/**
 * Ruby's Hash with string keys and string values, as the two Puppet functions
 * use it: an insertion-ordered list of key/value pairs. Enumeration (`map`,
 * `keys`) follows this order, `h[k] = v` replaces a present key in place and
 * appends an absent one, and `merge`/`update` walk the other hash in its own
 * order.
 */
module OrderedHash {
  import opened Wrappers

  type Hash = seq<(string, string)>

  /** `h.keys`, in iteration order. */
  function Keys(h: Hash): seq<string>
  {
    seq(|h|, i requires 0 <= i < |h| => h[i].0)
  }

  /** A Ruby Hash never holds a key twice. */
  predicate DistinctKeys(h: Hash)
  {
    forall i, j :: 0 <= i < j < |h| ==> h[i].0 != h[j].0
  }

  /** `h[k]`, with `nil` for a missing key. */
  function Lookup(h: Hash, k: string): Option<string>
  {
    if h == [] then None
    else if h[0].0 == k then Some(h[0].1)
    else Lookup(h[1..], k)
  }

  /** `h[k] = v`: a present key keeps its position, an absent one goes last. */
  function Put(h: Hash, k: string, v: string): Hash
  {
    if h == [] then [(k, v)]
    else if h[0].0 == k then [(k, v)] + h[1..]
    else [h[0]] + Put(h[1..], k, v)
  }

  /**
   * `h.merge(other) { |key, stored, given| resolve(key, stored, given) }`: every pair
   * of `other`, in order, is stored into `h`; where the key is already there,
   * the block decides the stored value.
   */
  function MergeWith(h: Hash, other: Hash, resolve: (string, string, string) -> string): Hash
    decreases |other|
  {
    if other == [] then h
    else
      var k, given := other[0].0, other[0].1;
      var v := match Lookup(h, k)
        case Some(stored) => resolve(k, stored, given)
        case None => given;
      MergeWith(Put(h, k, v), other[1..], resolve)
  }

  /** The block-less rule of `merge`: the other hash's value wins. */
  function TakeGiven(key: string, stored: string, given: string): string
  {
    given
  }

  /** `h.merge(other)` without a block. */
  function Merge(h: Hash, other: Hash): Hash
  {
    MergeWith(h, other, TakeGiven)
  }

  /** The value an entry of `h` ends up with after merging `other` into it. */
  function Resolved(entry: (string, string), other: Hash, resolve: (string, string, string) -> string): string
  {
    match Lookup(other, entry.0)
    case Some(given) => resolve(entry.0, entry.1, given)
    case None => entry.1
  }

  /** A key is listed by `h.keys` exactly when `h[k]` is not `nil`. */
  lemma {:induction false} KeysMatchLookup(h: Hash, k: string)
    ensures k in Keys(h) <==> Lookup(h, k).Some?
  {
    if h != [] {
      assert Keys(h) == [h[0].0] + Keys(h[1..]);
      KeysMatchLookup(h[1..], k);
    }
  }

  lemma {:induction false} LookupAbsent(h: Hash, k: string)
    requires k !in Keys(h)
    ensures Lookup(h, k) == None
  {
    if h != [] {
      assert h[0].0 == Keys(h)[0];
      assert Keys(h[1..]) == Keys(h)[1..];
      LookupAbsent(h[1..], k);
    }
  }

  lemma {:induction false} LookupAt(h: Hash, i: nat)
    requires DistinctKeys(h) && i < |h|
    ensures Lookup(h, h[i].0) == Some(h[i].1)
  {
    if i > 0 {
      assert h[0].0 != h[i].0;
      assert h[1..][i - 1] == h[i];
      LookupAt(h[1..], i - 1);
    }
  }

  /** Storing an absent key appends it. */
  lemma {:induction false} PutAbsent(h: Hash, k: string, v: string)
    requires k !in Keys(h)
    ensures Put(h, k, v) == h + [(k, v)]
  {
    if h != [] {
      assert h[0].0 == Keys(h)[0];
      assert Keys(h[1..]) == Keys(h)[1..];
      PutAbsent(h[1..], k, v);
      assert [h[0]] + (h[1..] + [(k, v)]) == h + [(k, v)];
    }
  }

  /** Storing a present key overwrites its value where it stands. */
  lemma {:induction false} PutPresent(h: Hash, i: nat, v: string)
    requires DistinctKeys(h) && i < |h|
    ensures Put(h, h[i].0, v) == h[i := (h[i].0, v)]
  {
    if i > 0 {
      assert h[0].0 != h[i].0;
      assert h[1..][i - 1] == h[i];
      PutPresent(h[1..], i - 1, v);
      assert [h[0]] + h[1..][i - 1 := (h[i].0, v)] == h[i := (h[i].0, v)];
    } else {
      assert [(h[0].0, v)] + h[1..] == h[0 := (h[0].0, v)];
    }
  }

  /** Merging a hash whose keys are all new appends it, whatever the block. */
  lemma {:induction false} MergeDisjoint(h: Hash, other: Hash, resolve: (string, string, string) -> string)
    requires DistinctKeys(other)
    requires forall k :: k in Keys(other) ==> k !in Keys(h)
    ensures MergeWith(h, other, resolve) == h + other
    decreases |other|
  {
    if other != [] {
      var k, given := other[0].0, other[0].1;
      assert Keys(other)[0] == k;
      LookupAbsent(h, k);
      PutAbsent(h, k, given);
      var h' := h + [(k, given)];
      assert Keys(h') == Keys(h) + [k];
      forall k' | k' in Keys(other[1..]) ensures k' !in Keys(h') {
        var j :| 0 <= j < |other[1..]| && Keys(other[1..])[j] == k';
        assert other[j + 1].0 == k';
        assert Keys(other)[j + 1] == k';
        assert other[0].0 != other[j + 1].0;
      }
      MergeDisjoint(h', other[1..], resolve);
      assert h' + other[1..] == h + other;
    }
  }

  /**
   * Merging a hash whose keys are all already present keeps the keys and
   * their order, and changes exactly the values of the keys it names.
   */
  lemma {:induction false} MergeOverlap(h: Hash, other: Hash, resolve: (string, string, string) -> string)
    requires DistinctKeys(h) && DistinctKeys(other)
    requires forall k :: k in Keys(other) ==> k in Keys(h)
    ensures |MergeWith(h, other, resolve)| == |h|
    ensures forall i :: 0 <= i < |h| ==>
      MergeWith(h, other, resolve)[i] == (h[i].0, Resolved(h[i], other, resolve))
    decreases |other|
  {
    if other == [] {
      forall i | 0 <= i < |h| ensures h[i] == (h[i].0, Resolved(h[i], other, resolve)) { }
    } else {
      var k, given := other[0].0, other[0].1;
      assert Keys(other)[0] == k;
      assert k in Keys(other);
      var j :| 0 <= j < |h| && Keys(h)[j] == k;
      LookupAt(h, j);
      var v := resolve(k, h[j].1, given);
      PutPresent(h, j, v);
      var h' := h[j := (k, v)];
      assert Keys(h') == Keys(h);
      forall k' | k' in Keys(other[1..]) ensures k' in Keys(h') {
        var m :| 0 <= m < |other[1..]| && Keys(other[1..])[m] == k';
        assert Keys(other)[m + 1] == k';
      }
      MergeOverlap(h', other[1..], resolve);
      forall i | 0 <= i < |h|
        ensures Resolved(h'[i], other[1..], resolve) == Resolved(h[i], other, resolve)
      {
        if i == j {
          forall m | 0 <= m < |other[1..]| ensures Keys(other[1..])[m] != k {
            assert other[0].0 != other[m + 1].0;
          }
          LookupAbsent(other[1..], k);
        } else {
          assert h[i].0 != h[j].0;
        }
      }
    }
  }
}
