/**
  checkSignature: the request signature is SHA-256 over the raw request
  parameters as `key=value` pairs in ascending key order, joined by `|`,
  followed by `|` and the project's secret key.
 */
module OrderSignature {

  import opened Wrappers
  import opened Text
  import opened OrderModel

  const Glue: string := "|"

  /** `key=value` for each key in turn. */
  function Pairs(params: map<string, string>, keys: seq<string>): (r: seq<string>)
    requires forall i :: 0 <= i < |keys| ==> keys[i] in params
    ensures |r| == |keys|
    ensures forall i :: 0 <= i < |keys| ==> r[i] == keys[i] + "=" + params[keys[i]]
  {
    if keys == [] then []
    else
      var last := keys[|keys| - 1];
      Pairs(params, keys[..|keys| - 1]) + [last + "=" + params[last]]
  }

  /** The `key=value` pairs in ascending key order. */
  ghost function SignedPairs(params: map<string, string>): seq<string>
  {
    SortedSeqElements(params.Keys);
    Pairs(params, SortedSeq(params.Keys))
  }

  /** The signed text: it depends on the parameters and the secret only. */
  ghost function Preimage(params: map<string, string>, secret: string): string
  {
    Join(SignedPairs(params), Glue) + Glue + secret
  }

  /**
    checkSignature. The keys are gathered in whatever order the map yields them,
    then sorted; the outcome is the same for every such order.
   */
  method CheckSignature(params: map<string, string>, secret: string, signature: string, sha256: string -> string)
    returns (r: Outcome<OrderError>)
    ensures r == if sha256(Preimage(params, secret)) == signature then Pass else Fail(SignatureInvalid)
  {
    var keys := GatherKeys(params);
    keys := SortStrings(keys);
    SortedSeqElements(params.Keys);
    SortedUnique(keys, SortedSeq(params.Keys));
    var gs := PairsOf(params, keys);
    var preimage := Join(gs, Glue) + Glue + secret;
    if sha256(preimage) != signature {
      return Fail(SignatureInvalid);
    }
    return Pass;
  }

  /** The map's keys, in the order the map yields them. */
  method GatherKeys(params: map<string, string>) returns (keys: seq<string>)
    ensures multiset(keys) == multiset(params.Keys)
  {
    keys := [];
    var rest := params.Keys;
    while rest != {}
      invariant rest <= params.Keys
      invariant multiset(keys) + multiset(rest) == multiset(params.Keys)
      decreases |rest|
    {
      var k :| k in rest;
      assert rest == (rest - {k}) + {k};
      assert multiset(rest) == multiset(rest - {k}) + multiset{k};
      keys := keys + [k];
      rest := rest - {k};
    }
  }

  /** The `key=value` strings, in the order of `keys`. */
  method PairsOf(params: map<string, string>, keys: seq<string>) returns (gs: seq<string>)
    requires forall i :: 0 <= i < |keys| ==> keys[i] in params
    ensures gs == Pairs(params, keys)
  {
    gs := [];
    for i := 0 to |keys|
      invariant gs == Pairs(params, keys[..i])
    {
      assert keys[..i + 1][..i] == keys[..i];
      gs := gs + [keys[i] + "=" + params[keys[i]]];
    }
    assert keys[..|keys|] == keys;
  }

  lemma ConcatMiddleDiffers(pre: string, a: string, b: string, post: string)
    requires a != b
    ensures pre + a + post != pre + b + post
  {
    if |a| == |b| {
      assert (pre + a + post)[|pre|..|pre| + |a|] == a;
      assert (pre + b + post)[|pre|..|pre| + |b|] == b;
    } else {
      assert |pre + a + post| != |pre + b + post|;
    }
  }

  /** Replacing the value of a key that occurs once in `keys` replaces exactly its pair. */
  lemma PairsReplaceOne(params: map<string, string>, keys: seq<string>, i: nat, v: string)
    requires forall j :: 0 <= j < |keys| ==> keys[j] in params
    requires i < |keys|
    requires forall j :: 0 <= j < |keys| && j != i ==> keys[j] != keys[i]
    ensures Pairs(params[keys[i] := v], keys)
      == Pairs(params, keys)[..i] + [keys[i] + "=" + v] + Pairs(params, keys)[i + 1..]
  {
    var p1 := Pairs(params, keys);
    var p2 := Pairs(params[keys[i] := v], keys);
    var q := p1[..i] + [keys[i] + "=" + v] + p1[i + 1..];
    assert |p2| == |q|;
    forall j | 0 <= j < |q|
      ensures p2[j] == q[j]
    {
      if j < i {
        assert q[j] == p1[j];
      } else if j > i {
        assert q[j] == p1[j];
      }
    }
  }

  /** The keys of a map in ascending order occur once each. */
  lemma SortedKeysDistinct(params: map<string, string>, i: int, j: int)
    requires 0 <= i < j < |SortedSeq(params.Keys)|
    ensures SortedSeq(params.Keys)[i] != SortedSeq(params.Keys)[j]
  {
    var keys := SortedSeq(params.Keys);
    assert Less(keys[i], keys[j]);
    LessIrreflexive(keys[i]);
  }

  /** The signed text around the pair at position `i`. */
  lemma PreimageAround(params: map<string, string>, secret: string, i: nat)
    requires i < |SortedSeq(params.Keys)|
    ensures var p := SignedPairs(params);
      Preimage(params, secret) == Leading(p[..i], Glue) + p[i] + (Trailing(p[i + 1..], Glue) + Glue + secret)
  {
    var p := SignedPairs(params);
    assert p == p[..i] + [p[i]] + p[i + 1..];
    JoinAround(p[..i], p[i], p[i + 1..], Glue);
  }

  lemma PairDiffers(k: string, v1: string, v2: string)
    requires v1 != v2
    ensures k + "=" + v1 != k + "=" + v2
  {
    assert (k + "=" + v1)[|k| + 1..] == v1;
    assert (k + "=" + v2)[|k| + 1..] == v2;
  }

  /** Where a key stands among the sorted keys; no other position holds it. */
  lemma KeyPosition(params: map<string, string>, k: string) returns (i: nat)
    requires k in params
    ensures i < |SortedSeq(params.Keys)| && SortedSeq(params.Keys)[i] == k
    ensures forall j :: 0 <= j < |SortedSeq(params.Keys)| && j != i ==> SortedSeq(params.Keys)[j] != k
  {
    var keys := SortedSeq(params.Keys);
    SortedSeqElements(params.Keys);
    i :| 0 <= i < |keys| && keys[i] == k;
    forall j | 0 <= j < |keys| && j != i
      ensures keys[j] != k
    {
      if j < i {
        SortedKeysDistinct(params, j, i);
      } else {
        SortedKeysDistinct(params, i, j);
      }
    }
  }

  /** Replacing the element at `i` keeps the parts around it. */
  lemma Splice(p: seq<string>, i: nat, x: string)
    requires i < |p|
    ensures var q := p[..i] + [x] + p[i + 1..];
      |q| == |p| && q[i] == x && q[..i] == p[..i] && q[i + 1..] == p[i + 1..]
  {
    var q := p[..i] + [x] + p[i + 1..];
    assert q[..i] == p[..i];
    assert q[i + 1..] == p[i + 1..];
  }

  /** A new value for a present key keeps the key set, so both are signed in the same key order. */
  lemma SignedPairsSameOrder(params: map<string, string>, k: string, v: string)
    requires k in params
    requires forall j :: 0 <= j < |SortedSeq(params.Keys)| ==> SortedSeq(params.Keys)[j] in params
    ensures SignedPairs(params) == Pairs(params, SortedSeq(params.Keys))
    ensures SignedPairs(params[k := v]) == Pairs(params[k := v], SortedSeq(params.Keys))
  {
    assert params[k := v].Keys == params.Keys;
  }

  /** Changing the value of key `k` changes only the pair of `k`, at position `i`. */
  lemma SignedPairsReplace(params: map<string, string>, k: string, v: string) returns (i: nat)
    requires k in params
    ensures |SignedPairs(params[k := v])| == |SignedPairs(params)| && i < |SignedPairs(params)|
    ensures SignedPairs(params)[i] == k + "=" + params[k]
    ensures SignedPairs(params[k := v])[i] == k + "=" + v
    ensures SignedPairs(params[k := v])[..i] == SignedPairs(params)[..i]
    ensures SignedPairs(params[k := v])[i + 1..] == SignedPairs(params)[i + 1..]
  {
    i := KeyPosition(params, k);
    var keys := SortedSeq(params.Keys);
    SortedSeqElements(params.Keys);
    SignedPairsSameOrder(params, k, v);
    PairsReplaceOne(params, keys, i, v);
    Splice(Pairs(params, keys), i, k + "=" + v);
  }

  /** Changing the value of any one parameter changes the signed text. */
  lemma PreimageDetectsValueChange(params: map<string, string>, secret: string, k: string, v: string)
    requires k in params && params[k] != v
    ensures Preimage(params[k := v], secret) != Preimage(params, secret)
  {
    var p1, p2 := SignedPairs(params), SignedPairs(params[k := v]);
    var i := SignedPairsReplace(params, k, v);
    PairDiffers(k, params[k], v);
    PreimageAround(params, secret, i);
    PreimageAround(params[k := v], secret, i);
    ConcatMiddleDiffers(Leading(p1[..i], Glue), p1[i], p2[i], Trailing(p1[i + 1..], Glue) + Glue + secret);
  }
}
