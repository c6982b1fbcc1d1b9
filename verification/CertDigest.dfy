/** The input of agentCertDigest: both halves of a keypair, each preceded by its decimal length and a colon. */
module CertDigest {
  import opened Kube

  newtype Byte = b: int | 0 <= b < 256
  type Bytes = seq<Byte>

  datatype Keypair = Keypair(crt: Bytes, key: Bytes)

  const COLON: Byte := 58
  const ZERO: Byte := 48

  /** n in decimal, as "%d" prints it. */
  function Decimal(n: nat): Bytes {
    if n < 10 then [ZERO + n as Byte] else Decimal(n / 10) + [ZERO + (n % 10) as Byte]
  }

  function Field(data: Bytes): Bytes { Decimal(|data|) + [COLON] + data }

  /** The bytes that are hashed. */
  function DigestInput(pair: Keypair): Bytes { Field(pair.crt) + Field(pair.key) }

  // ---- A reader for that format ----

  /** Reads decimal digits up to a colon, starting from the value seen so far. */
  function ReadLength(s: Bytes, seen: nat): Option<(nat, Bytes)> {
    if s == [] then None
    else if s[0] == COLON then Some((seen, s[1..]))
    else if ZERO <= s[0] < COLON then ReadLength(s[1..], 10 * seen + (s[0] - ZERO) as nat)
    else None
  }

  function ReadField(s: Bytes): Option<(Bytes, Bytes)> {
    match ReadLength(s, 0)
    case None => None
    case Some((n, rest)) => if n <= |rest| then Some((rest[..n], rest[n..])) else None
  }

  function ReadDigestInput(s: Bytes): Option<Keypair> {
    match ReadField(s)
    case None => None
    case Some((crt, rest)) =>
      match ReadField(rest)
      case None => None
      case Some((key, end)) => if end == [] then Some(Keypair(crt, key)) else None
  }

  lemma {:induction false} ReadDecimal(n: nat, tail: Bytes)
    ensures ReadLength(Decimal(n) + tail, 0) == ReadLength(tail, n)
  {
    if n < 10 {
      assert (Decimal(n) + tail)[1..] == tail;
    } else {
      var d := [ZERO + (n % 10) as Byte];
      assert Decimal(n) + tail == Decimal(n / 10) + (d + tail);
      ReadDecimal(n / 10, d + tail);
      assert (d + tail)[1..] == tail;
    }
  }

  lemma ReadFieldBack(data: Bytes, tail: Bytes)
    ensures ReadField(Field(data) + tail) == Some((data, tail))
  {
    var rest := [COLON] + data + tail;
    assert Field(data) + tail == Decimal(|data|) + rest;
    ReadDecimal(|data|, rest);
    assert rest[1..] == data + tail;
  }

  /** The reader undoes the format for every keypair. */
  lemma DigestInputRoundTrip(pair: Keypair)
    ensures ReadDigestInput(DigestInput(pair)) == Some(pair)
  {
    ReadFieldBack(pair.crt, Field(pair.key));
    ReadFieldBack(pair.key, []);
    assert Field(pair.key) + [] == Field(pair.key);
  }

  /** So distinct keypairs are never hashed from the same bytes... */
  lemma DigestInputInjective(a: Keypair, b: Keypair)
    requires DigestInput(a) == DigestInput(b)
    ensures a == b
  {
    DigestInputRoundTrip(a);
    DigestInputRoundTrip(b);
  }

  function Digest(hash: Bytes -> string, pair: Keypair): string { hash(DigestInput(pair)) }

  /** ... and with a collision-free hash equal digests mean equal keypairs. */
  lemma DigestIdentifies(hash: Bytes -> string, a: Keypair, b: Keypair)
    requires forall x, y :: hash(x) == hash(y) ==> x == y
    ensures Digest(hash, a) == Digest(hash, b) <==> a == b
  {
    if Digest(hash, a) == Digest(hash, b) {
      DigestInputInjective(a, b);
    }
  }

  /** Without the lengths the bytes of two different keypairs can coincide. */
  lemma PlainConcatenationIsAmbiguous(crt: Bytes, key: Bytes)
    requires crt != []
    ensures exists other: Keypair :: other != Keypair(crt, key) && other.crt + other.key == crt + key
  {
    var other := Keypair([], crt + key);
    assert other.crt + other.key == crt + key;
  }
}
