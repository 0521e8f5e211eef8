/** Small shared vocabulary: optional values, sequence prefixes and byte chunks. */
module Common {

  datatype Option<+T> = None | Some(value: T)

  newtype Byte = b: int | 0 <= b < 256

  type Bytes = seq<Byte>

  /** `a` is an initial segment of `b`. */
  predicate Prefix<T(==)>(a: seq<T>, b: seq<T>) {
    |a| <= |b| && a == b[..|a|]
  }

  lemma PrefixTrans<T>(a: seq<T>, b: seq<T>, c: seq<T>)
    requires Prefix(a, b) && Prefix(b, c)
    ensures Prefix(a, c)
  {
    assert b[..|a|] == c[..|a|];
  }

  /** A left factor of a prefix is a prefix. */
  lemma PrefixOfSum<T>(a: seq<T>, b: seq<T>, c: seq<T>)
    requires Prefix(a + b, c)
    ensures Prefix(a, c)
  {
    assert (a + b)[..|a|] == a;
  }

  /** All chunks of a stream put end to end. */
  function Flatten(chunks: seq<Bytes>): Bytes {
    if chunks == [] then [] else chunks[0] + Flatten(chunks[1..])
  }

  lemma {:induction false} FlattenSum(a: seq<Bytes>, b: seq<Bytes>)
    ensures Flatten(a + b) == Flatten(a) + Flatten(b)
  {
    if a == [] {
      assert a + b == b;
    } else {
      assert (a + b)[1..] == a[1..] + b;
      FlattenSum(a[1..], b);
    }
  }

  /** Whole chunks followed by a part of the next one are a prefix of the flattened stream. */
  lemma FlattenPart(done: seq<Bytes>, chunk: Bytes, k: nat, all: seq<Bytes>)
    requires k <= |chunk| && Prefix(done + [chunk], all)
    ensures Prefix(Flatten(done) + chunk[..k], Flatten(all))
  {
    var rest := all[|done| + 1..];
    assert all == done + ([chunk] + rest);
    FlattenSum(done, [chunk] + rest);
    assert ([chunk] + rest)[1..] == rest;
    assert Flatten(all) == Flatten(done) + (chunk + Flatten(rest));
  }

  lemma FlattenPrefix(done: seq<Bytes>, all: seq<Bytes>)
    requires Prefix(done, all)
    ensures Prefix(Flatten(done), Flatten(all))
  {
    assert all == done + all[|done|..];
    FlattenSum(done, all[|done|..]);
  }
}
