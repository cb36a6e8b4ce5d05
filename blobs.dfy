/**
 * Byte content and object URLs. A Blob built from parts holds the parts laid
 * end to end in order; an object URL is a fresh opaque handle to a Blob's bytes
 * that stays valid until it is revoked (the component never revokes one).
 */
module Blobs {

  type Bytes = seq<bv8>

  /** A piece of the encoded recording, delivered by one `dataavailable` event. */
  type Chunk = Bytes

  /** An object URL, as an opaque handle. */
  type Handle = nat

  /** The number of bytes in `parts` altogether. */
  function TotalLength(parts: seq<Bytes>): nat
  {
    if parts == [] then 0 else TotalLength(parts[..|parts| - 1]) + |parts[|parts| - 1]|
  }

  /** The bytes of a Blob made from `parts`: every byte of every part, none lost or added. */
  function Concat(parts: seq<Bytes>): (r: Bytes)
    ensures |r| == TotalLength(parts)
  {
    if parts == [] then []
    else
      var rest := Concat(parts[1..]);
      assert TotalLength(parts) == |parts[0]| + TotalLength(parts[1..]) by {
        TotalLengthFront(parts);
      }
      parts[0] + rest
  }

  /** TotalLength counted from the front: the first part's length plus the rest's. */
  lemma {:induction false} TotalLengthFront(parts: seq<Bytes>)
    requires parts != []
    ensures TotalLength(parts) == |parts[0]| + TotalLength(parts[1..])
    decreases |parts|
  {
    if |parts| == 1 {
      assert parts[..0] == [] && parts[1..] == [];
    } else {
      var init := parts[..|parts| - 1];
      TotalLengthFront(init);
      assert init[1..] == parts[1..][..|parts[1..]| - 1];
      assert init[0] == parts[0];
    }
  }

  /** Building a Blob from two runs of parts gives the two runs' bytes one after the other. */
  lemma {:induction false} ConcatAppend(a: seq<Bytes>, b: seq<Bytes>)
    ensures Concat(a + b) == Concat(a) + Concat(b)
  {
    if a == [] {
      assert a + b == b;
    } else {
      assert (a + b)[1..] == a[1..] + b;
      ConcatAppend(a[1..], b);
    }
  }

  /** Part `k` sits in the Blob right after the bytes of the parts before it. */
  lemma ConcatPartAt(parts: seq<Bytes>, k: nat)
    requires k < |parts|
    ensures var off := |Concat(parts[..k])|;
      off + |parts[k]| <= |Concat(parts)| && Concat(parts)[off..off + |parts[k]|] == parts[k]
  {
    assert parts == parts[..k] + ([parts[k]] + parts[k + 1..]);
    ConcatAppend(parts[..k], [parts[k]] + parts[k + 1..]);
    ConcatAppend([parts[k]], parts[k + 1..]);
    assert Concat([parts[k]]) == parts[k] by {
      assert [parts[k]][1..] == [];
    }
  }

  /** The table of live object URLs and the next handle the browser will hand out. */
  datatype Store = Store(blobs: map<Handle, Bytes>, next: Handle)

  /** Every live handle was handed out before `next`. */
  predicate StoreWf(s: Store)
  {
    forall h :: h in s.blobs ==> h < s.next
  }

  const EmptyStore: Store := Store(map[], 0)

  /** `URL.createObjectURL`: a fresh handle to `bytes`; every existing URL stays as it was. */
  function CreateObjectUrl(s: Store, bytes: Bytes): (r: (Handle, Store))
    ensures StoreWf(s) ==> StoreWf(r.1) && r.0 !in s.blobs
    ensures r.1.blobs == s.blobs[r.0 := bytes]
  {
    (s.next, Store(s.blobs[s.next := bytes], s.next + 1))
  }
}
