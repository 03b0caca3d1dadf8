/** First-match searches over the list of clients (`find` and `findIndex`
    by reference) and the removal of the first match (`splice`).
    References are not assumed to be unique. */
module Lookup {
  import opened Types
  import opened Clients

  /** Index of the first client with reference `r`, or -1. */
  function FindIndex(cs: seq<Client>, r: ClientRef): (i: int)
    ensures -1 <= i < |cs|
    ensures 0 <= i ==> cs[i].ref == r
    ensures forall j :: 0 <= j < |cs| && (i < 0 || j < i) ==> cs[j].ref != r
    ensures 0 <= i <==> Listed(cs, r)
    decreases |cs|
  {
    if cs == [] then -1
    else if cs[0].ref == r then 0
    else
      var k := FindIndex(cs[1..], r);
      if k < 0 then -1 else k + 1
  }

  /** Whether some client has reference `r`. */
  predicate Listed(cs: seq<Client>, r: ClientRef) {
    exists j :: 0 <= j < |cs| && cs[j].ref == r
  }

  /** The client an event for `r` is delivered to, if any. */
  function Find(cs: seq<Client>, r: ClientRef): (found: Option<Client>)
    ensures found.Some? <==> Listed(cs, r)
    ensures found.Some? ==> found.value in cs && found.value.ref == r
    ensures found.Some? ==> found.value == cs[FindIndex(cs, r)]
  {
    var i := FindIndex(cs, r);
    if i < 0 then None else Some(cs[i])
  }

  /** The list without its first client with reference `r`; unchanged if
      there is none. */
  function RemoveFirst(cs: seq<Client>, r: ClientRef): (rest: seq<Client>)
    ensures !Listed(cs, r) ==> rest == cs
    ensures var i := FindIndex(cs, r);
            0 <= i ==> |rest| == |cs| - 1 && multiset(rest) + multiset{cs[i]} == multiset(cs)
    // the others keep their relative order
    ensures var i := FindIndex(cs, r);
            0 <= i ==> forall j :: 0 <= j < |rest| ==> rest[j] == if j < i then cs[j] else cs[j + 1]
  {
    var i := FindIndex(cs, r);
    if i < 0 then cs
    else
      assert cs == cs[..i] + [cs[i]] + cs[i + 1..];
      cs[..i] + cs[i + 1..]
  }

  /** How many listed clients have reference `r`. */
  function Count(cs: seq<Client>, r: ClientRef): nat
    decreases |cs|
  {
    if cs == [] then 0 else (if cs[0].ref == r then 1 else 0) + Count(cs[1..], r)
  }

  lemma {:induction false} CountListed(cs: seq<Client>, r: ClientRef)
    ensures Count(cs, r) > 0 <==> Listed(cs, r)
    decreases |cs|
  {
    if cs != [] {
      CountListed(cs[1..], r);
      if cs[0].ref != r && Listed(cs, r) {
        var j :| 0 <= j < |cs| && cs[j].ref == r;
        assert cs[1..][j - 1].ref == r;
      }
      if Listed(cs[1..], r) {
        var j :| 0 <= j < |cs[1..]| && cs[1..][j].ref == r;
        assert cs[j + 1].ref == r;
      }
    }
  }

  /** Counting distributes over concatenation. */
  lemma {:induction false} CountConcat(a: seq<Client>, b: seq<Client>, r: ClientRef)
    ensures Count(a + b, r) == Count(a, r) + Count(b, r)
    decreases |a|
  {
    if a == [] {
      assert a + b == b;
    } else {
      CountConcat(a[1..], b, r);
      assert (a + b)[0] == a[0] && (a + b)[1..] == a[1..] + b;
    }
  }

  /** Appending a client adds one to its own reference's count and leaves
      every other reference's count alone. */
  lemma CountAppend(cs: seq<Client>, c: Client, r: ClientRef)
    ensures Count(cs + [c], r) == Count(cs, r) + (if c.ref == r then 1 else 0)
  {
    CountConcat(cs, [c], r);
    assert [c][1..] == [];
  }

  /** Removing by `r` takes away exactly one client with reference `r` when
      one is listed, and no client with any other reference. */
  lemma CountRemoveFirst(cs: seq<Client>, r: ClientRef, other: ClientRef)
    ensures Count(RemoveFirst(cs, r), other)
         == Count(cs, other) - (if other == r && Listed(cs, r) then 1 else 0)
  {
    var i := FindIndex(cs, r);
    if 0 <= i {
      assert cs == cs[..i] + ([cs[i]] + cs[i + 1..]);
      CountConcat(cs[..i], [cs[i]] + cs[i + 1..], other);
      CountConcat([cs[i]], cs[i + 1..], other);
      CountConcat(cs[..i], cs[i + 1..], other);
      assert [cs[i]][1..] == [];
    }
  }

  /** A client appended later never takes an event away from an earlier
      client with the same reference. */
  lemma AppendKeepsRouting(cs: seq<Client>, c: Client, r: ClientRef)
    ensures Listed(cs, r) ==> FindIndex(cs + [c], r) == FindIndex(cs, r)
    ensures !Listed(cs, r) && c.ref == r ==> FindIndex(cs + [c], r) == |cs|
    ensures !Listed(cs, r) && c.ref != r ==> FindIndex(cs + [c], r) == -1
  {
    var i := FindIndex(cs, r);
    if Listed(cs, r) {
      assert (cs + [c])[i] == cs[i];
    } else {
      assert (cs + [c])[|cs|] == c;
    }
  }
}
