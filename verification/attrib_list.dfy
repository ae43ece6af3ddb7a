/** EGL attribute lists: a C array of `EGLint` holding (attribute, value) pairs and
    terminated by an `EGL_NONE` attribute (section 3.4.1 of the EGL 1.4 specification). */
module AttribList {
  import opened EglTypes

  /** One (attribute, value) pair. */
  type Pair = (EGLint, EGLint)

  /** Every slot a copy loop with room for `limit` pairs reads exists. The loop reads the key
      slot before it tests its pair budget, so the slot after the last copied pair is read
      even when the budget is exhausted. */
  predicate Readable(raw: seq<EGLint>, limit: nat)
    decreases limit
  {
    |raw| > 0 && (raw[0] == EGL_NONE || limit == 0 || (|raw| >= 2 && Readable(raw[2..], limit - 1)))
  }

  /** The pairs a copy loop with room for `limit` pairs reads: the pairs in front of the first
      `EGL_NONE` key, cut off after `limit` of them. */
  function ReadPairs(raw: seq<EGLint>, limit: nat): (ps: seq<Pair>)
    requires Readable(raw, limit)
    ensures |ps| <= limit && 2 * |ps| < |raw|
    decreases limit
  {
    if raw[0] == EGL_NONE || limit == 0 then [] else [(raw[0], raw[1])] + ReadPairs(raw[2..], limit - 1)
  }

  /** Pair `k` read is slots `2k` and `2k + 1`, no key read is the terminator, and reading
      stops at the terminator or when the budget is spent. */
  lemma {:induction false} ReadPairsSlots(raw: seq<EGLint>, limit: nat)
    requires Readable(raw, limit)
    ensures var ps := ReadPairs(raw, limit);
      && (forall k :: 0 <= k < |ps| ==> ps[k] == (raw[2 * k], raw[2 * k + 1]) && ps[k].0 != EGL_NONE)
      && (|ps| == limit || raw[2 * |ps|] == EGL_NONE)
    decreases limit
  {
    if raw[0] != EGL_NONE && limit != 0 {
      var tail := raw[2..];
      ReadPairsSlots(tail, limit - 1);
      var rest := ReadPairs(tail, limit - 1);
      var ps := ReadPairs(raw, limit);
      assert ps == [(raw[0], raw[1])] + rest;
      forall k | 1 <= k < |ps|
        ensures ps[k] == (raw[2 * k], raw[2 * k + 1]) && ps[k].0 != EGL_NONE
      {
        assert ps[k] == rest[k - 1] == (tail[2 * (k - 1)], tail[2 * (k - 1) + 1]);
      }
      assert |rest| == limit - 1 || tail[2 * |rest|] == EGL_NONE;
    }
  }

  /** One test of a copy loop at pair `m`, slot `i = 2m`: the loop goes on exactly while pairs
      remain to be read, and then reads pair `m` from slots `i` and `i + 1`. */
  lemma ReadStep(raw: seq<EGLint>, limit: nat, m: nat, i: nat)
    requires Readable(raw, limit) && m <= |ReadPairs(raw, limit)| && i == 2 * m
    ensures var ps := ReadPairs(raw, limit);
      && i < |raw|
      && (m < |ps| <==> raw[i] != EGL_NONE && i < 2 * limit)
      && (m < |ps| ==> ps[m] == (raw[i], raw[i + 1]))
  {
    ReadPairsSlots(raw, limit);
  }

  /** The pairs read never use the terminator as a key. */
  lemma ReadPairsNoNoneKey(raw: seq<EGLint>, limit: nat)
    requires Readable(raw, limit)
    ensures NoNoneKey(ReadPairs(raw, limit))
  {
    ReadPairsSlots(raw, limit);
  }

  /** The slots of `ps`, in order, without a terminator. */
  function Flatten(ps: seq<Pair>): (raw: seq<EGLint>)
    ensures |raw| == 2 * |ps|
  {
    if ps == [] then [] else [ps[0].0, ps[0].1] + Flatten(ps[1..])
  }

  /** Slot `2k` of the flattened list is key `k`, slot `2k + 1` its value. */
  lemma {:induction false} FlattenSlots(ps: seq<Pair>)
    ensures forall k :: 0 <= k < |ps| ==> Flatten(ps)[2 * k] == ps[k].0 && Flatten(ps)[2 * k + 1] == ps[k].1
  {
    if ps != [] {
      FlattenSlots(ps[1..]);
      var rest := Flatten(ps[1..]);
      assert Flatten(ps) == [ps[0].0, ps[0].1] + rest;
      forall k | 1 <= k < |ps|
        ensures Flatten(ps)[2 * k] == ps[k].0 && Flatten(ps)[2 * k + 1] == ps[k].1
      {
        assert Flatten(ps)[2 * k] == rest[2 * (k - 1)];
        assert Flatten(ps)[2 * k + 1] == rest[2 * (k - 1) + 1];
      }
    }
  }

  /** Appending a pair appends its two slots. */
  lemma {:induction false} FlattenSnoc(ps: seq<Pair>, p: Pair)
    ensures Flatten(ps + [p]) == Flatten(ps) + [p.0, p.1]
  {
    if ps != [] {
      assert (ps + [p])[1..] == ps[1..] + [p];
      FlattenSnoc(ps[1..], p);
    }
  }

  /** The first `m` pairs of `ps` flattened, built one pair at a time as a copy loop
      builds them. */
  function FlattenPrefix(ps: seq<Pair>, m: nat): seq<EGLint>
    requires m <= |ps|
  {
    if m == 0 then [] else FlattenPrefix(ps, m - 1) + [ps[m - 1].0, ps[m - 1].1]
  }

  /** Copying pair `m` as the slots `a, b` extends the prefix by that pair. */
  lemma FlattenPrefixStep(ps: seq<Pair>, m: nat, a: EGLint, b: EGLint)
    requires m < |ps| && ps[m] == (a, b)
    ensures FlattenPrefix(ps, m + 1) == FlattenPrefix(ps, m) + [a, b]
  {
  }

  lemma {:induction false} FlattenPrefixIsFlatten(ps: seq<Pair>, m: nat)
    requires m <= |ps|
    ensures FlattenPrefix(ps, m) == Flatten(ps[..m])
  {
    if m > 0 {
      FlattenPrefixIsFlatten(ps, m - 1);
      assert ps[..m] == ps[..m - 1] + [ps[m - 1]];
      FlattenSnoc(ps[..m - 1], ps[m - 1]);
    }
  }

  /** Some pair among the first `m` has key `key`, tested one pair at a time as a copy
      loop tests them. */
  predicate KeySeen(ps: seq<Pair>, m: nat, key: EGLint)
    requires m <= |ps|
  {
    m > 0 && (KeySeen(ps, m - 1, key) || ps[m - 1].0 == key)
  }

  lemma {:induction false} KeySeenIndex(ps: seq<Pair>, m: nat, key: EGLint)
    requires m <= |ps|
    ensures KeySeen(ps, m, key) <==> exists k :: 0 <= k < m && ps[k].0 == key
  {
    if m > 0 {
      KeySeenIndex(ps, m - 1, key);
    }
  }

  /** The C array holding `ps` followed by the terminator. */
  function Encode(ps: seq<Pair>): (raw: seq<EGLint>)
    ensures |raw| == 2 * |ps| + 1 && raw[2 * |ps|] == EGL_NONE
  {
    Flatten(ps) + [EGL_NONE]
  }

  /** No pair uses the terminator as its key, so `Encode` ends the list where `ps` ends. */
  predicate NoNoneKey(ps: seq<Pair>) {
    forall k :: 0 <= k < |ps| ==> ps[k].0 != EGL_NONE
  }

  /** Some pair has key `key`. */
  predicate HasKey(ps: seq<Pair>, key: EGLint) {
    KeySeen(ps, |ps|, key)
  }

  lemma HasKeyIndex(ps: seq<Pair>, key: EGLint)
    ensures HasKey(ps, key) <==> exists k :: 0 <= k < |ps| && ps[k].0 == key
  {
    KeySeenIndex(ps, |ps|, key);
  }

  function Min(a: nat, b: nat): nat { if a <= b then a else b }

  /** An encoded non-empty list starts with its first pair's two slots, followed by the
      encoding of the remaining pairs. */
  lemma EncodeCons(ps: seq<Pair>)
    requires ps != []
    ensures Encode(ps)[0] == ps[0].0 && Encode(ps)[1] == ps[0].1
    ensures Encode(ps)[2..] == Encode(ps[1..])
  {
    assert Flatten(ps) == [ps[0].0, ps[0].1] + Flatten(ps[1..]);
  }

  /** Reading back an encoded list yields its pairs, cut off after `limit` of them. */
  lemma {:induction false} ReadEncoded(ps: seq<Pair>, limit: nat)
    requires NoNoneKey(ps)
    ensures Readable(Encode(ps), limit)
    ensures ReadPairs(Encode(ps), limit) == ps[..Min(|ps|, limit)]
    decreases limit
  {
    var raw := Encode(ps);
    if ps == [] || limit == 0 {
    } else {
      EncodeCons(ps);
      ReadEncoded(ps[1..], limit - 1);
      assert ps[..Min(|ps|, limit)] == [ps[0]] + ps[1..][..Min(|ps| - 1, limit - 1)];
    }
  }
}
