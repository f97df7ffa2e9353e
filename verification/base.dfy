/** Shared vocabulary of the model: optional values, bytes and the string-typed
    identifiers the client passes around. */
module Base {

  /** JavaScript `undefined`/`null` versus a present value. */
  datatype Option<+T> = None | Some(value: T) {
    function GetOr(default: T): T {
      match this
      case Some(v) => v
      case None => default
    }
  }

  /** One octet of a websocket frame. */
  type byte = b: int | 0 <= b < 256

  type Bytes = seq<byte>

  /** Correlation token of an RPC request (a textual UUID). */
  type Uuid = string

  /** Hardware-configuration GUID naming an OA metric set. */
  type Guid = string

  // ---------------------------------------------------------------------
  // Small facts about maps and sequences that the session proofs share

  /** A second write to a key hides the first. */
  lemma OverwriteTwice<K, V>(m: map<K, V>, k: K, a: V, b: V)
    ensures m[k := a][k := b] == m[k := b]
  {
  }

  /** Filing a fresh key and removing it again gives back the map. */
  lemma UnfileTwice<K, V>(m: map<K, V>, k: K, v: V)
    requires k !in m
    ensures m[k := v] - {k} == m
  {
  }

  /** A prefix agrees with the whole sequence on its own indices. */
  lemma PrefixIndex<T>(a: seq<T>, b: seq<T>, i: nat)
    requires a <= b && i < |a|
    ensures b[i] == a[i]
  {
  }

  /** Dropping a prefix of a concatenation leaves the rest. */
  lemma DropPrefix<T>(pre: seq<T>, x: seq<T>, y: seq<T>)
    ensures (pre + x + y)[|pre|..] == x + y
  {
    assert pre + x + y == pre + (x + y);
  }

  /** Appending to a sequence that extends a prefix. */
  lemma AppendAfter<T>(pre: seq<T>, whole: seq<T>, e: T)
    requires pre <= whole
    ensures whole + [e] == pre + whole[|pre|..] + [e]
  {
    assert whole == pre + whole[|pre|..];
  }
}
