/** Vocabulary shared by the whole model: identifiers, chunks, driver events and stream items. */
module Types {

  newtype Byte = x: int | 0 <= x < 256
  type Bytes = seq<Byte>
  type StreamId = nat
  type ConnId = nat

  datatype Option<+T> = None | Some(value: T)

  const STREAM_BUFFER_SIZE: nat := 65536
  const WRITE_CHANNEL_CAPACITY: nat := 256
  const SERVER_EVENT_CHANNEL_CAPACITY: nat := 8192
  const CONN_CLOSE_CHANNEL_CAPACITY: nat := 1024
  const U64_VALUES: nat := 0x1_0000_0000_0000_0000

  // The low two bits of a stream id carry its initiator and its direction (section 2.1 of
  // RFC 9000); masking with 0b01 and 0b10 is written with % and / on naturals.

  predicate ClientInitiated(s: StreamId) {
    s % 2 == 0
  }

  predicate Bidirectional(s: StreamId) {
    s / 2 % 2 == 0
  }

  datatype Chunk = Chunk(bytes: Bytes, fin: bool)

  datatype DriverEvent =
    | NewBidi(stream: StreamId)
    | NewUni(stream: StreamId)
    | Data(stream: StreamId, chunk: Chunk)

  /** What travels on one direction of a stream: its bytes, then possibly the FIN mark. */
  datatype Item = Octet(b: Byte) | Fin

  function Octets(bytes: Bytes): seq<Item> {
    if bytes == [] then [] else Octets(bytes[..|bytes| - 1]) + [Octet(bytes[|bytes| - 1])]
  }

  function Items(c: Chunk): seq<Item> {
    Octets(c.bytes) + if c.fin then [Fin] else []
  }

  function AllItems(cs: seq<Chunk>): seq<Item> {
    if cs == [] then [] else Items(cs[0]) + AllItems(cs[1..])
  }

  /** Lookup in a table of sequences where a missing key means the empty sequence. */
  function At<K, V>(m: map<K, seq<V>>, k: K): seq<V> {
    if k in m then m[k] else []
  }

  function Extend<K, V>(m: map<K, seq<V>>, k: K, more: seq<V>): map<K, seq<V>> {
    m[k := At(m, k) + more]
  }

  lemma {:induction false} OctetsConcat(a: Bytes, b: Bytes)
    ensures Octets(a + b) == Octets(a) + Octets(b)
  {
    if b == [] {
      assert a + b == a;
    } else {
      assert (a + b)[..|a + b| - 1] == a + b[..|b| - 1];
      OctetsConcat(a, b[..|b| - 1]);
    }
  }

  /** The items of some bytes are these bytes, one by one. */
  lemma {:induction false} OctetsAreTheBytes(bytes: Bytes)
    ensures |Octets(bytes)| == |bytes| && forall i | 0 <= i < |bytes| :: Octets(bytes)[i] == Octet(bytes[i])
  {
    if bytes != [] {
      OctetsAreTheBytes(bytes[..|bytes| - 1]);
    }
  }

  /** The kind of a client-initiated stream, read off the low two bits of its id: 0b00 or 0b10. */
  lemma KindOfId(s: StreamId)
    ensures ClientInitiated(s) && Bidirectional(s) <==> s % 4 == 0
    ensures ClientInitiated(s) && !Bidirectional(s) <==> s % 4 == 2
    ensures ClientInitiated(s) <==> s % 2 == 0
  {
  }

  lemma FinNotInOctets(bytes: Bytes)
    ensures Fin !in Octets(bytes)
  {
  }

  /** Cutting a chunk anywhere splits its items; the FIN stays with the second part. */
  lemma ItemsSplit(bytes: Bytes, fin: bool, n: nat)
    requires n <= |bytes|
    ensures Items(Chunk(bytes, fin)) == Octets(bytes[..n]) + Items(Chunk(bytes[n..], fin))
  {
    assert bytes == bytes[..n] + bytes[n..];
    OctetsConcat(bytes[..n], bytes[n..]);
  }

  lemma {:induction false} AllItemsConcat(a: seq<Chunk>, b: seq<Chunk>)
    ensures AllItems(a + b) == AllItems(a) + AllItems(b)
  {
    if a == [] {
      assert a + b == b;
    } else {
      assert (a + b)[1..] == a[1..] + b;
      AllItemsConcat(a[1..], b);
    }
  }

  lemma Assoc<T>(a: seq<T>, b: seq<T>, c: seq<T>)
    ensures (a + b) + c == a + (b + c)
  {
  }
}
