/**
 * Values and helpers shared by the device models: an optional value, the
 * engine's item assets, .NET's `List<T>.Remove`, `string.ToLowerInvariant`
 * and the round's random source.
 */
module Common {

  datatype Option<+T> = None | Some(value: T)

  /** An `ItemGroup` asset: the kind of spawn point an item may appear at. */
  datatype ItemGroup = ItemGroup(uid: nat, name: string)

  /**
   * An `Item` asset. `name` is the asset's object name, `itemName` the name
   * recipes refer to; `uid` tells apart assets whose other fields agree.
   */
  datatype Item = Item(uid: nat, name: string, itemName: string, isScrap: bool,
                       minValue: int, maxValue: int, spawnPositionTypes: seq<ItemGroup>)

  // ---------------------------------------------------------------------------
  // List<T>.Remove: the first element equal to x goes, the rest keep their order
  // ---------------------------------------------------------------------------

  /** Position of the first occurrence of `x` in `s`. */
  function FirstIndex<T(==)>(s: seq<T>, x: T): (k: nat)
    requires x in s
    ensures k < |s| && s[k] == x && x !in s[..k]
  {
    if s[0] == x then 0
    else
      var k := FirstIndex(s[1..], x);
      assert s[..k + 1] == [s[0]] + s[1..][..k];
      k + 1
  }

  /** `List<T>.Remove(x)`: removes the first occurrence of `x`, if there is one. */
  function RemoveFirst<T(==)>(s: seq<T>, x: T): (r: seq<T>)
    ensures x !in s ==> r == s
    ensures x in s ==> |r| == |s| - 1
  {
    if s == [] then []
    else if s[0] == x then s[1..]
    else
      assert s == [s[0]] + s[1..];
      [s[0]] + RemoveFirst(s[1..], x)
  }

  /** Exactly the first occurrence goes; the elements before and after it keep their order. */
  lemma {:induction false} RemoveFirstRemovesFirst<T>(s: seq<T>, x: T)
    requires x in s
    ensures RemoveFirst(s, x) == s[..FirstIndex(s, x)] + s[FirstIndex(s, x) + 1..]
  {
    if s[0] != x {
      assert s == [s[0]] + s[1..];
      RemoveFirstRemovesFirst(s[1..], x);
      var k := FirstIndex(s[1..], x);
      assert s[..k + 1] == [s[0]] + s[1..][..k];
      assert s[k + 2..] == s[1..][k + 1..];
    }
  }

  // ---------------------------------------------------------------------------
  // string.ToLowerInvariant, on the ASCII letters
  // ---------------------------------------------------------------------------

  function LowerChar(c: char): char
  {
    if 'A' <= c <= 'Z' then (c as int + 32) as char else c
  }

  /** `ToLowerInvariant`: upper-case ASCII letters become lower-case, all else is kept. */
  function Lower(s: string): string
  {
    seq(|s|, i requires 0 <= i < |s| => LowerChar(s[i]))
  }

  // ---------------------------------------------------------------------------
  // System.Random.Next(lo, hi) on a stream of raw samples
  // ---------------------------------------------------------------------------

  /**
   * One call of `Random.Next(lo, hi)`: a value in [lo, hi), or `lo` when the
   * range is empty. The generator is a stream of raw samples consumed one per
   * call; once it is exhausted every call yields `lo`.
   */
  function Draw(stream: seq<nat>, lo: int, hi: int): (r: (int, seq<nat>))
    requires lo <= hi
    ensures lo < hi ==> lo <= r.0 < hi
    ensures lo == hi ==> r.0 == lo
    ensures r.1 == if stream == [] then [] else stream[1..]
  {
    if stream == [] then (lo, [])
    else if lo == hi then (lo, stream[1..])
    else (lo + stream[0] % (hi - lo), stream[1..])
  }

  /** The round's `AnomalyRandom` generator. */
  class Random {
    var stream: seq<nat>

    constructor (stream: seq<nat>)
      ensures this.stream == stream
    {
      this.stream := stream;
    }

    method Next(lo: int, hi: int) returns (v: int)
      requires lo <= hi
      modifies this
      ensures (v, stream) == Draw(old(stream), lo, hi)
    {
      var d := Draw(stream, lo, hi);
      v, stream := d.0, d.1;
    }
  }
}
